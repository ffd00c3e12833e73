/** Dotted paths into Frappe documents: a segment ending in `[]` ranges over the rows of a table. */
module Paths {
  import opened Text
  import opened Json

  /** The segments of a dotted path. */
  function SplitDots(path: string): (r: seq<string>)
    ensures |r| >= 1
    decreases |path|
  {
    if path == "" then [""]
    else
      var rest := SplitDots(path[1..]);
      if path[0] == '.' then [""] + rest else [[path[0]] + rest[0]] + rest[1..]
  }

  /** Segments joined by dots again. */
  function JoinDots(segments: seq<string>): string
    requires |segments| >= 1
    decreases |segments|
  {
    if |segments| == 1 then segments[0] else segments[0] + "." + JoinDots(segments[1..])
  }

  /** Different paths have different segments. */
  lemma {:induction false} JoinSplit(path: string)
    ensures JoinDots(SplitDots(path)) == path
    decreases |path|
  {
    if path != "" {
      var rest := SplitDots(path[1..]);
      JoinSplit(path[1..]);
      if path[0] == '.' {
        assert ([""] + rest)[1..] == rest;
        assert path == "." + path[1..];
      } else {
        var segments := [[path[0]] + rest[0]] + rest[1..];
        assert segments[1..] == rest[1..];
        assert path == [path[0]] + path[1..];
        if |rest| > 1 {
          assert segments[0] + "." + JoinDots(rest[1..]) == [path[0]] + (rest[0] + "." + JoinDots(rest[1..]));
        }
      }
    }
  }

  predicate IsMany(segment: string) {
    |segment| >= 2 && segment[|segment| - 2..] == "[]"
  }

  /** The member a segment names. */
  function SegmentName(segment: string): string {
    if IsMany(segment) then segment[..|segment| - 2] else segment
  }

  /** A member of an object, or undefined. */
  function Field(members: seq<Member>, key: string): Json
    decreases |members|
  {
    if members == [] then Undefined
    else if members[0].key == key then members[0].value
    else Field(members[1..], key)
  }

  /** `{ ...row, [key]: value }`. */
  function SetField(members: seq<Member>, key: string, value: Json): seq<Member>
    decreases |members|
  {
    if members == [] then [Member(key, value)]
    else if members[0].key == key then [Member(key, value)] + members[1..]
    else [members[0]] + SetField(members[1..], key, value)
  }

  lemma {:induction false} SetThenField(members: seq<Member>, key: string, value: Json, other: string)
    ensures Field(SetField(members, key, value), other) == if other == key then value else Field(members, other)
    decreases |members|
  {
    if members != [] && members[0].key != key {
      SetThenField(members[1..], key, value, other);
      assert ([members[0]] + SetField(members[1..], key, value))[1..] == SetField(members[1..], key, value);
    } else if members != [] {
      assert ([Member(key, value)] + members[1..])[1..] == members[1..];
    }
  }

  /** The values a segment leads to from a value. */
  function Expand(value: Json, segment: string): seq<Json> {
    if !value.Obj? then [] else Children(Field(value.members, SegmentName(segment)), IsMany(segment))
  }

  function Children(child: Json, many: bool): seq<Json> {
    if child.Undefined? then [] else if !many then [child] else if child.Arr? then child.items else []
  }

  function ExpandAll(values: seq<Json>, segment: string): seq<Json>
    decreases |values|
  {
    if values == [] then [] else Expand(values[0], segment) + ExpandAll(values[1..], segment)
  }

  lemma {:induction false} ExpandAppend(values: seq<Json>, value: Json, segment: string)
    ensures ExpandAll(values + [value], segment) == ExpandAll(values, segment) + Expand(value, segment)
    decreases |values|
  {
    if values == [] {
      assert ([] + [value])[1..] == [];
    } else {
      ExpandAppend(values[1..], value, segment);
      assert (values + [value])[1..] == values[1..] + [value] && (values + [value])[0] == values[0];
      Regroup(Expand(values[0], segment), ExpandAll(values[1..], segment), Expand(value, segment));
    }
  }

  lemma Regroup(a: seq<Json>, b: seq<Json>, c: seq<Json>)
    ensures (a + b) + c == a + (b + c)
  {
  }

  /** The values that segments lead to, one after the other. */
  function Walk(values: seq<Json>, segments: seq<string>): seq<Json>
    decreases |segments|
  {
    if segments == [] then values else Walk(ExpandAll(values, segments[0]), segments[1..])
  }

  lemma {:induction false} WalkAppend(values: seq<Json>, segments: seq<string>, last: string)
    ensures Walk(values, segments + [last]) == ExpandAll(Walk(values, segments), last)
    decreases |segments|
  {
    if segments == [] {
      assert ([] + [last])[1..] == [];
    } else {
      WalkAppend(ExpandAll(values, segments[0]), segments[1..], last);
      assert (segments + [last])[1..] == segments[1..] + [last];
    }
  }
}
