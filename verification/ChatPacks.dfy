/**
 Chat batches: how packs of scenes are accepted, and what happens to their results through dispatch,
 answers, failures, cancellation, lease expiry, restarts and operator retries.  A pack's task is the
 code between two awaits of `_run_pack`.
 */
module ChatPacks {
  import opened Outcomes
  import opened ChatParse

  type SceneId = string
  type Time = real

  const MAX_PACKS := 500
  const MAX_SCENES_PER_PACK := 10
  const MAX_TOTAL_SCENES := 5000
  const MAX_TRIES := 3

  datatype PackState = Queued | Running | Done | Partial | Error | Cancelled

  datatype Pack = Pack(scenes: seq<SceneId>, state: PackState, tries: nat, results: map<SceneId, string>)

  /** A pack as submitted; `wellFormed` stands for its name, messages and parameters. */
  datatype RawPack = RawPack(scenes: seq<string>, wellFormed: bool)

  // ---------------------------------------------------------------- acceptance

  predicate Alnum(c: char) {
    'a' <= c <= 'z' || 'A' <= c <= 'Z' || '0' <= c <= '9'
  }

  predicate IdChar(c: char) {
    Alnum(c) || c == '.' || c == '_' || c == ' ' || c == ':' || c == '+' || c == '-'
  }

  function Identifier(raw: string): Option<string> {
    var clean := Strip(raw);
    if clean == "" || |clean| > 160 || !Alnum(clean[0]) || exists i | 0 <= i < |clean| :: !IdChar(clean[i]) then None else Some(clean)
  }

  predicate PackAcceptable(raw: RawPack, kind: Kind) {
    && raw.wellFormed && 1 <= |raw.scenes| <= MAX_SCENES_PER_PACK && (kind.Completion? ==> |raw.scenes| == 1)
    && (forall i | 0 <= i < |raw.scenes| :: Identifier(raw.scenes[i]).Some?)
    && (forall i, j | 0 <= i < j < |raw.scenes| :: Identifier(raw.scenes[i]) != Identifier(raw.scenes[j]))
  }

  predicate Overlap(a: RawPack, b: RawPack) {
    exists i, j | 0 <= i < |a.scenes| && 0 <= j < |b.scenes| :: Identifier(a.scenes[i]) == Identifier(b.scenes[j])
  }

  /** What `create_batch` accepts: enough packs, each well made, no scene in two of them. */
  ghost predicate Acceptable(raws: seq<RawPack>, kind: Kind) {
    && 1 <= |raws| <= MAX_PACKS
    && (forall p | 0 <= p < |raws| :: PackAcceptable(raws[p], kind))
    && (forall p, q | 0 <= p < q < |raws| :: !Overlap(raws[p], raws[q]))
  }

  function SetOf(xs: seq<SceneId>): set<SceneId> {
    set x | x in xs
  }

  function SceneCount(packs: seq<Pack>): nat {
    if packs == [] then 0 else SceneCount(packs[..|packs| - 1]) + |packs[|packs| - 1].scenes|
  }

  ghost predicate Made(raw: RawPack, p: Pack) {
    && p == Pack(p.scenes, Queued, 0, map[]) && |p.scenes| == |raw.scenes| && Distinct(p.scenes)
    && forall i | 0 <= i < |raw.scenes| :: Identifier(raw.scenes[i]) == Some(p.scenes[i])
  }

  ghost predicate Disjoint(packs: seq<Pack>) {
    forall p, q | 0 <= p < q < |packs| :: SetOf(packs[p].scenes) !! SetOf(packs[q].scenes)
  }

  /** Why the first offending check of one pack fails, or its cleaned scene ids. */
  method CleanScenes(raw: RawPack, kind: Kind) returns (r: Result<seq<SceneId>>)
    ensures r.Ok? <==> PackAcceptable(raw, kind)
    ensures r.Ok? ==> Made(raw, Pack(r.value, Queued, 0, map[]))
  {
    if raw.scenes == [] || |raw.scenes| > MAX_SCENES_PER_PACK { return Err("each pack must contain 1 to 10 scene_ids"); }
    var ids: seq<SceneId> := [];
    for i := 0 to |raw.scenes|
      invariant |ids| == i && forall k | 0 <= k < i :: Identifier(raw.scenes[k]) == Some(ids[k])
    {
      var id := Identifier(raw.scenes[i]);
      if id.None? { return Err("invalid scene_id"); }
      ids := ids + [id.value];
    }
    if kind.Completion? && |ids| != 1 { return Err("completion packs must contain exactly one result id"); }
    for i := 0 to |ids|
      invariant forall k, l | 0 <= k < l < i :: ids[k] != ids[l]
    {
      if exists k | 0 <= k < i :: ids[k] == ids[i] {
        var k :| 0 <= k < i && ids[k] == ids[i];
        assert Identifier(raw.scenes[k]) == Identifier(raw.scenes[i]);
        return Err("scene_ids must be unique");
      }
    }
    if !raw.wellFormed { return Err("invalid pack"); }
    r := Ok(ids);
  }

  /** Accepts exactly the acceptable submissions, and then makes one queued pack per entry. */
  method CreatePacks(raws: seq<RawPack>, kind: Kind) returns (r: Result<seq<Pack>>)
    ensures r.Ok? <==> Acceptable(raws, kind)
    ensures r.Ok? ==> |r.value| == |raws| && Disjoint(r.value) && forall p | 0 <= p < |raws| :: Made(raws[p], r.value[p])
  {
    if raws == [] || |raws| > MAX_PACKS { return Err("packs must contain 1 to 500 entries"); }
    var packs: seq<Pack> := [];
    var seen: set<SceneId> := {};
    for n := 0 to |raws|
      invariant |packs| == n && Collected(raws, packs, seen, kind)
    {
      hide Collected, PackAcceptable, Identifier;
      var ids := CleanScenes(raws[n], kind);
      if ids.Err? {
        BadPackRefuses(raws, n, kind);
        return Err(ids.code);
      }
      var made := Pack(ids.value, Queued, 0, map[]);
      if exists i | 0 <= i < |ids.value| :: ids.value[i] in seen {
        SeenOverlaps(raws, packs, seen, kind, made);
        return Err("scene_id appears in more than one pack");
      }
      CollectedGrows(raws, packs, seen, kind, made);
      seen := seen + SetOf(ids.value);
      packs := packs + [made];
    }
    CollectedAll(raws, packs, seen, kind);
    if SceneCount(packs) > MAX_TOTAL_SCENES { return Err("batch exceeds 5000 total scenes"); }
    r := Ok(packs);
  }

  /** The packs made so far, and the scenes they use. */
  ghost predicate Collected(raws: seq<RawPack>, packs: seq<Pack>, seen: set<SceneId>, kind: Kind) {
    && |packs| <= |raws| && (forall x :: x in seen <==> exists p :: 0 <= p < |packs| && x in packs[p].scenes)
    && (forall p | 0 <= p < |packs| :: Made(raws[p], packs[p]) && PackAcceptable(raws[p], kind))
    && (forall p, q | 0 <= p < q < |packs| :: !Overlap(raws[p], raws[q]) && SetOf(packs[p].scenes) !! SetOf(packs[q].scenes))
  }

  lemma BadPackRefuses(raws: seq<RawPack>, n: nat, kind: Kind)
    requires n < |raws| && !PackAcceptable(raws[n], kind)
    ensures !Acceptable(raws, kind)
  {
  }

  lemma CollectedAll(raws: seq<RawPack>, packs: seq<Pack>, seen: set<SceneId>, kind: Kind)
    requires Collected(raws, packs, seen, kind) && |packs| == |raws| && 1 <= |raws| <= MAX_PACKS
    ensures Acceptable(raws, kind) && Disjoint(packs) && (forall p | 0 <= p < |raws| :: Made(raws[p], packs[p]))
    ensures SceneCount(packs) <= MAX_TOTAL_SCENES
  {
    forall p: nat | p < |packs| ensures |packs[p].scenes| <= MAX_SCENES_PER_PACK { SizeIsKept(raws, packs, seen, kind, p); }
    TotalLimitIsImplied(packs);
  }

  lemma SizeIsKept(raws: seq<RawPack>, packs: seq<Pack>, seen: set<SceneId>, kind: Kind, p: nat)
    requires Collected(raws, packs, seen, kind) && p < |packs|
    ensures |packs[p].scenes| <= MAX_SCENES_PER_PACK
  {
    assert Made(raws[p], packs[p]);
  }

  lemma CollectedGrows(raws: seq<RawPack>, packs: seq<Pack>, seen: set<SceneId>, kind: Kind, made: Pack)
    requires Collected(raws, packs, seen, kind) && |packs| < |raws| && Made(raws[|packs|], made) && PackAcceptable(raws[|packs|], kind)
    requires forall i | 0 <= i < |made.scenes| :: made.scenes[i] !in seen
    ensures Collected(raws, packs + [made], seen + SetOf(made.scenes), kind)
  {
    hide Made, Overlap, PackAcceptable, SetOf;
    forall p: nat | p < |packs| ensures !Overlap(raws[p], raws[|packs|]) && SetOf(packs[p].scenes) !! SetOf(made.scenes) {
      PackIsApart(raws, packs, seen, kind, made, p);
    }
    SeenGrows(packs, seen, made);
  }

  lemma PackIsApart(raws: seq<RawPack>, packs: seq<Pack>, seen: set<SceneId>, kind: Kind, made: Pack, p: nat)
    requires Collected(raws, packs, seen, kind) && p < |packs| < |raws| && Made(raws[|packs|], made)
    requires forall i | 0 <= i < |made.scenes| :: made.scenes[i] !in seen
    ensures !Overlap(raws[p], raws[|packs|]) && SetOf(packs[p].scenes) !! SetOf(made.scenes)
  {
    UnseenIsApart(raws[p], packs[p], raws[|packs|], made, seen);
  }

  lemma SeenGrows(packs: seq<Pack>, seen: set<SceneId>, made: Pack)
    requires forall x :: x in seen <==> exists p :: 0 <= p < |packs| && x in packs[p].scenes
    ensures forall x :: x in seen + SetOf(made.scenes) <==> exists p :: 0 <= p < |packs + [made]| && x in (packs + [made])[p].scenes
  {
    var all, n := packs + [made], |packs|;
    forall x ensures x in seen + SetOf(made.scenes) <==> exists p :: 0 <= p < |all| && x in all[p].scenes {
      if x in seen {
        var p :| 0 <= p < n && x in packs[p].scenes;
        assert x in all[p].scenes;
      }
      if x in made.scenes { assert x in all[n].scenes; }
    }
  }

  lemma SeenOverlaps(raws: seq<RawPack>, packs: seq<Pack>, seen: set<SceneId>, kind: Kind, made: Pack)
    requires Collected(raws, packs, seen, kind) && |packs| < |raws| && Made(raws[|packs|], made)
    requires exists i | 0 <= i < |made.scenes| :: made.scenes[i] in seen
    ensures !Acceptable(raws, kind)
  {
    var i :| 0 <= i < |made.scenes| && made.scenes[i] in seen;
    var k :| 0 <= k < |packs| && made.scenes[i] in packs[k].scenes;
    var j :| 0 <= j < |packs[k].scenes| && packs[k].scenes[j] == made.scenes[i];
    assert Made(raws[k], packs[k]);
    assert Identifier(raws[k].scenes[j]) == Identifier(raws[|packs|].scenes[i]);
    assert Overlap(raws[k], raws[|packs|]);
  }

  lemma UnseenIsApart(a: RawPack, p: Pack, b: RawPack, q: Pack, seen: set<SceneId>)
    requires Made(a, p) && Made(b, q) && (forall x | x in p.scenes :: x in seen) && forall i | 0 <= i < |q.scenes| :: q.scenes[i] !in seen
    ensures !Overlap(a, b) && SetOf(p.scenes) !! SetOf(q.scenes)
  {
    forall i, j | 0 <= i < |a.scenes| && 0 <= j < |b.scenes| ensures Identifier(a.scenes[i]) != Identifier(b.scenes[j]) {
      assert p.scenes[i] in p.scenes;
    }
  }

  /** The limit on the total can never be the one that refuses a batch: the other two imply it. */
  lemma {:induction false} TotalLimitIsImplied(packs: seq<Pack>)
    requires forall p | 0 <= p < |packs| :: |packs[p].scenes| <= MAX_SCENES_PER_PACK
    ensures SceneCount(packs) <= |packs| * MAX_SCENES_PER_PACK
    ensures |packs| <= MAX_PACKS ==> SceneCount(packs) <= MAX_TOTAL_SCENES
    decreases |packs|
  {
    if packs != [] { TotalLimitIsImplied(packs[..|packs| - 1]); }
  }
}
