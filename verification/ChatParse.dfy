/**
 Reading a Chat model's answer: which scene texts it contains.  JSON decoding itself is given: a reply
 carries what the decoder made of the whole text, and the objects found inside it when that failed.
 */
module ChatParse {
  import opened Outcomes

  datatype Json = Null | Bool(b: bool) | Num(n: real) | Str(text: string) | Arr(items: seq<Json>) | Obj(fields: map<string, Json>)

  datatype Kind = Visual | Motion | Completion

  datatype Reply = Reply(text: string, decoded: Option<Json>, objects: seq<Json>)

  predicate IsSpace(c: char) {
    c == ' ' || '\t' <= c <= '\r' || '\U{1C}' <= c <= '\U{1F}' || c == '\U{85}' || c == '\U{A0}' || c == '\U{1680}'
    || '\U{2000}' <= c <= '\U{200A}' || c == '\U{2028}' || c == '\U{2029}' || c == '\U{202F}' || c == '\U{205F}' || c == '\U{3000}'
  }

  function StripLeft(s: string): string {
    if s != "" && IsSpace(s[0]) then StripLeft(s[1..]) else s
  }

  function StripRight(s: string): string {
    if s != "" && IsSpace(s[|s| - 1]) then StripRight(s[..|s| - 1]) else s
  }

  function Strip(s: string): string {
    StripRight(StripLeft(s))
  }

  predicate Clean(s: string) {
    s != "" && !IsSpace(s[0]) && !IsSpace(s[|s| - 1])
  }

  lemma {:induction false} StripRightKeepsStart(s: string)
    ensures StripRight(s) <= s && (StripRight(s) != "" ==> !IsSpace(StripRight(s)[|StripRight(s)| - 1]))
    decreases |s|
  {
    if s != "" && IsSpace(s[|s| - 1]) { StripRightKeepsStart(s[..|s| - 1]); }
  }

  lemma {:induction false} StripLeftStarts(s: string)
    ensures StripLeft(s) != "" ==> !IsSpace(StripLeft(s)[0])
    decreases |s|
  {
    if s != "" && IsSpace(s[0]) { StripLeftStarts(s[1..]); }
  }

  /** Whatever survives stripping has no space at either end. */
  lemma StripCleans(s: string)
    ensures Strip(s) == "" || Clean(Strip(s))
  {
    StripLeftStarts(s);
    StripRightKeepsStart(StripLeft(s));
  }

  // ---------------------------------------------------------------- the accepted shapes

  predicate Truthy(j: Json) {
    match j
    case Null => false
    case Bool(b) => b
    case Num(n) => n != 0.0
    case Str(t) => t != ""
    case Arr(items) => items != []
    case Obj(fields) => fields != map[]
  }

  function Get(fields: map<string, Json>, key: string): Json {
    if key in fields then fields[key] else Null
  }

  /** `row.get("scene_id") or row.get("id")`. */
  function RowId(fields: map<string, Json>): Json {
    if Truthy(Get(fields, "scene_id")) then Get(fields, "scene_id") else Get(fields, "id")
  }

  function TextKeys(k: Kind): seq<string> {
    [if k.Motion? then "motion_prompt" else "visual_prompt", "prompt", "text"]
  }

  /** The first of the keys that holds text at all, blank or not. */
  function FirstText(fields: map<string, Json>, keys: seq<string>): Option<string> {
    if keys == [] then None
    else if keys[0] in fields && fields[keys[0]].Str? then Some(fields[keys[0]].text)
    else FirstText(fields, keys[1..])
  }

  function FromObject(fields: map<string, Json>, expected: seq<string>): map<string, string> {
    map k | k in fields && k in expected && fields[k].Str? && Strip(fields[k].text) != "" :: Strip(fields[k].text)
  }

  /** The pair one row contributes; a list or object for an id is not hashable and raises. */
  function RowPair(row: Json, expected: seq<string>, kind: Kind): Option<Option<(string, string)>> {
    if !row.Obj? then Some(None)
    else
      var id, text := RowId(row.fields), FirstText(row.fields, TextKeys(kind));
      if id.Arr? || id.Obj? then None
      else if id.Str? && id.text in expected && text.Some? && Strip(text.value) != "" then Some(Some((id.text, Strip(text.value))))
      else Some(None)
  }

  /** The rows in order: a later row for the same scene replaces an earlier one. */
  function FromRows(rows: seq<Json>, expected: seq<string>, kind: Kind): Option<map<string, string>> {
    if rows == [] then Some(map[])
    else
      var before := FromRows(rows[..|rows| - 1], expected, kind);
      var pair := RowPair(rows[|rows| - 1], expected, kind);
      if before.None? || pair.None? then None
      else if pair.value.None? then before
      else Some(before.value[pair.value.value.0 := pair.value.value.1])
  }

  function Candidate(data: Json): Json {
    if !data.Obj? then data
    else if "results" in data.fields then data.fields["results"]
    else if "prompts" in data.fields then data.fields["prompts"]
    else data
  }

  predicate NamesScene(row: Json) {
    row.Obj? && (Truthy(Get(row.fields, "scene_id")) || Truthy(Get(row.fields, "id")))
  }

  function Salvaged(objects: seq<Json>): seq<Json> {
    if objects == [] then [] else (if NamesScene(objects[0]) then [objects[0]] else []) + Salvaged(objects[1..])
  }

  function Whole(text: string, expected: seq<string>): map<string, string> {
    if |expected| == 1 && Strip(text) != "" then map[expected[0] := Strip(text)] else map[]
  }

  function FromData(data: Json, expected: seq<string>, kind: Kind): Option<map<string, string>> {
    var c := Candidate(data);
    if c.Obj? then Some(FromObject(c.fields, expected))
    else if c.Arr? then FromRows(c.items, expected, kind)
    else Some(map[])
  }

  /** Every accepted shape of answer; None is the exception an unhashable id raises. */
  function Parse(reply: Reply, expected: seq<string>, kind: Kind): Option<map<string, string>> {
    if kind.Completion? then Some(Whole(reply.text, expected))
    else if reply.decoded.Some? then FromData(reply.decoded.value, expected, kind)
    else if |expected| == 1 && Strip(reply.text) != "" then Some(Whole(reply.text, expected))
    else FromData(Arr(Salvaged(reply.objects)), expected, kind)
  }

  // ---------------------------------------------------------------- what an answer can contain

  ghost predicate OwnTexts(out: map<string, string>, expected: seq<string>) {
    forall k | k in out :: k in expected && Clean(out[k])
  }

  lemma {:induction false} RowsAreOwn(rows: seq<Json>, expected: seq<string>, kind: Kind)
    ensures FromRows(rows, expected, kind).Some? ==> OwnTexts(FromRows(rows, expected, kind).value, expected)
    decreases |rows|
  {
    if rows != [] {
      RowsAreOwn(rows[..|rows| - 1], expected, kind);
      var row := rows[|rows| - 1];
      if row.Obj? && FirstText(row.fields, TextKeys(kind)).Some? { StripCleans(FirstText(row.fields, TextKeys(kind)).value); }
    }
  }

  /** An answer only ever contains scenes it was asked for, each with text that is not blank. */
  lemma ParseIsOwn(reply: Reply, expected: seq<string>, kind: Kind)
    ensures Parse(reply, expected, kind).Some? ==> OwnTexts(Parse(reply, expected, kind).value, expected)
  {
    StripCleans(reply.text);
    var data := if reply.decoded.Some? then reply.decoded.value else Arr(Salvaged(reply.objects));
    var c := Candidate(data);
    if c.Obj? {
      forall k | k in c.fields && c.fields[k].Str? ensures Strip(c.fields[k].text) == "" || Clean(Strip(c.fields[k].text)) {
        StripCleans(c.fields[k].text);
      }
    } else if c.Arr? {
      RowsAreOwn(c.items, expected, kind);
    }
  }

  /** A completion is opaque: JSON in it is the text, never a list of scenes. */
  lemma CompletionIsOpaque(reply: Reply, expected: seq<string>)
    ensures Parse(reply, expected, Completion) == Parse(reply.(decoded := None, objects := []), expected, Completion)
    ensures |expected| != 1 ==> Parse(reply, expected, Completion) == Some(map[])
  {
  }

  /** In a list answer the last usable row about a scene is the one that counts. */
  lemma {:induction false} LastRowWins(rows: seq<Json>, expected: seq<string>, kind: Kind, id: string)
    requires FromRows(rows, expected, kind).Some?
    ensures id in FromRows(rows, expected, kind).value <==>
              exists i :: 0 <= i < |rows| && RowPair(rows[i], expected, kind).Some? && RowPair(rows[i], expected, kind).value.Some?
                          && RowPair(rows[i], expected, kind).value.value.0 == id
    ensures id in FromRows(rows, expected, kind).value ==>
              exists i :: 0 <= i < |rows| && RowPair(rows[i], expected, kind) == Some(Some((id, FromRows(rows, expected, kind).value[id])))
                          && forall j | i < j < |rows| :: RowPair(rows[j], expected, kind).Some?
                               && (RowPair(rows[j], expected, kind).value.Some? ==> RowPair(rows[j], expected, kind).value.value.0 != id)
    decreases |rows|
  {
    hide RowPair;
    if rows != [] {
      var init, n := rows[..|rows| - 1], |rows| - 1;
      LastRowWins(init, expected, kind, id);
      var pair := RowPair(rows[n], expected, kind).value;
      if pair.Some? && pair.value.0 == id {
        assert RowPair(rows[n], expected, kind) == Some(Some((id, FromRows(rows, expected, kind).value[id])));
      } else if id in FromRows(init, expected, kind).value {
        var i :| 0 <= i < n && RowPair(init[i], expected, kind) == Some(Some((id, FromRows(init, expected, kind).value[id])))
                 && forall j | i < j < n :: RowPair(init[j], expected, kind).Some?
                      && (RowPair(init[j], expected, kind).value.Some? ==> RowPair(init[j], expected, kind).value.value.0 != id);
        assert rows[i] == init[i];
        forall j | i < j < |rows|
          ensures RowPair(rows[j], expected, kind).Some? && (RowPair(rows[j], expected, kind).value.Some? ==> RowPair(rows[j], expected, kind).value.value.0 != id)
        {
          if j < n { assert rows[j] == init[j]; }
        }
      } else {
        forall i | 0 <= i < |rows| && RowPair(rows[i], expected, kind).Some? && RowPair(rows[i], expected, kind).value.Some?
          ensures RowPair(rows[i], expected, kind).value.value.0 != id
        {
          if i < n { assert rows[i] == init[i]; }
        }
      }
    }
  }

  // ---------------------------------------------------------------- the loops

  method CollectRows(rows: seq<Json>, expected: seq<string>, kind: Kind) returns (out: Option<map<string, string>>)
    ensures out == FromRows(rows, expected, kind)
  {
    var found: map<string, string> := map[];
    for i := 0 to |rows|
      invariant FromRows(rows[..i], expected, kind) == Some(found)
    {
      assert rows[..i + 1][..i] == rows[..i] && rows[..i + 1][i] == rows[i];
      var row := rows[i];
      if row.Obj? {
        var id := RowId(row.fields);
        if id.Arr? || id.Obj? {
          RaisedStays(rows, i + 1, expected, kind);
          return None;
        }
        var text := FirstText(row.fields, TextKeys(kind));
        if id.Str? && id.text in expected && text.Some? && Strip(text.value) != "" {
          found := found[id.text := Strip(text.value)];
        }
      }
    }
    assert rows[..|rows|] == rows;
    out := Some(found);
  }

  lemma {:induction false} RaisedStays(rows: seq<Json>, i: nat, expected: seq<string>, kind: Kind)
    requires i <= |rows| && FromRows(rows[..i], expected, kind).None?
    ensures FromRows(rows, expected, kind).None?
    decreases |rows| - i
  {
    if i == |rows| {
      assert rows[..i] == rows;
    } else {
      assert rows[..i + 1][..i] == rows[..i];
      RaisedStays(rows, i + 1, expected, kind);
    }
  }

  method ParseSceneResults(reply: Reply, expected: seq<string>, kind: Kind) returns (out: Option<map<string, string>>)
    ensures out == Parse(reply, expected, kind)
    ensures out.Some? ==> OwnTexts(out.value, expected)
  {
    ParseIsOwn(reply, expected, kind);
    if kind.Completion? { return Some(Whole(reply.text, expected)); }
    var data := Null;
    if reply.decoded.Some? {
      data := reply.decoded.value;
    } else {
      if |expected| == 1 && Strip(reply.text) != "" { return Some(Whole(reply.text, expected)); }
      var recovered: seq<Json> := [];
      var i := |reply.objects|;
      while i > 0
        invariant 0 <= i <= |reply.objects|
        invariant recovered == Salvaged(reply.objects[i..])
      {
        i := i - 1;
        assert reply.objects[i..] == [reply.objects[i]] + reply.objects[i + 1..];
        if NamesScene(reply.objects[i]) { recovered := [reply.objects[i]] + recovered; }
      }
      assert reply.objects[0..] == reply.objects;
      data := Arr(recovered);
    }
    var candidate := Candidate(data);
    match candidate
    case Obj(fields) => out := Some(FromObject(fields, expected));
    case Arr(items) => out := CollectRows(items, expected, kind);
    case _ => out := Some(map[]);
  }
}
