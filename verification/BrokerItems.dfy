/** Batch items as the broker keeps them, and the two updates every part of it shares. */
module BrokerItems {
  import opened Outcomes

  type StudioId = string
  type Machine = string
  type BatchId = string
  type Time = real
  type Gb = real

  const LOCAL: Machine := "local"

  datatype Modality = Render | Voice | Music | Image | Video

  datatype ItemState = Queued | Running | CancelRequested | Uncertain | Done | Error | Cancelled

  /** `recovery` says the operator trail exists; it is never removed once it does. */
  datatype Item = Item(
    state: ItemState, retryAt: Option<Time>, avoid: map<Machine, Time>,
    studio: Option<StudioId>, jobId: Option<string>, tries: nat, infra: nat, infraSince: Option<Time>,
    recovery: bool, reserved: Gb)

  const NEW_ITEM := Item(Queued, None, map[], None, None, 0, 0, None, false, 0.0)

  predicate Unfinished(st: ItemState) {
    st.Queued? || st.Running? || st.CancelRequested?
  }

  /** What a dispatch writes into the item it starts. */
  function Started(x: Item, s: StudioId, reserve: Gb): Item {
    x.(state := Running, retryAt := None, studio := Some(s), jobId := None, tries := x.tries + 1, reserved := reserve)
  }

  predicate LeaseExpired(lease: Option<Time>, now: Time) {
    lease.Some? && lease.value <= now
  }

  function Fence(x: Item): Item {
    if Unfinished(x.state) then x.(state := Cancelled, retryAt := None) else x
  }

  function FenceAll(items: seq<Item>): (r: seq<Item>)
    ensures |r| == |items|
    ensures forall i | 0 <= i < |items| && (items[i].state == Queued || items[i].state == Running || items[i].state == CancelRequested) ::
              r[i] == items[i].(state := Cancelled, retryAt := None)
    ensures forall i | 0 <= i < |items| && !Unfinished(items[i].state) :: r[i] == items[i]
  {
    if items == [] then [] else [Fence(items[0])] + FenceAll(items[1..])
  }

  predicate AnyUnfinished(items: seq<Item>) {
    exists i | 0 <= i < |items| :: Unfinished(items[i].state)
  }
}
