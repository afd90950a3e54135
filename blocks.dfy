/**
 * The layout blocks of a rich chat message: the three block builders, the
 * dictionary shape each one produces on the wire, the filter that drops absent
 * entries from a block list, and the layout of several field groups separated
 * by dividers.
 */
module Blocks {
  import opened Wrappers

  /** One marked-up text object of a section's `fields` list. */
  datatype Field = Mrkdwn(text: string)

  /** A layout block. A header is always sent with emoji rendering enabled. */
  datatype Block =
    | Header(text: string)
    | Section(fields: seq<Field>)
    | Divider

  /** The JSON values that occur in a block payload. */
  datatype Json =
    | JString(str: string)
    | JBool(b: bool)
    | JArray(items: seq<Json>)
    | JObject(members: map<string, Json>)

  // ---------------------------------------------------------------------------
  // Wire shape of the builders
  // ---------------------------------------------------------------------------

  /** The dictionary a field builder returns: `{"type": "mrkdwn", "text": text}`. */
  function FieldWire(f: Field): (j: Json) {
    JObject(map["type" := JString("mrkdwn"), "text" := JString(f.text)])
  }

  function FieldsWire(fields: seq<Field>): (items: seq<Json>) {
    if fields == [] then [] else [FieldWire(fields[0])] + FieldsWire(fields[1..])
  }

  /** The dictionary that the header, section and divider builders return. */
  function Wire(b: Block): (j: Json) {
    match b
    case Header(text) =>
      JObject(map[
        "type" := JString("header"),
        "text" := JObject(map[
          "type" := JString("plain_text"),
          "text" := JString(text),
          "emoji" := JBool(true)])])
    case Section(fields) =>
      JObject(map["type" := JString("section"), "fields" := JArray(FieldsWire(fields))])
    case Divider =>
      JObject(map["type" := JString("divider")])
  }

  /** Reads a field object back; anything but the exact field shape is refused. */
  function FieldFromWire(j: Json): (f: Option<Field>) {
    if j.JObject? && j.members.Keys == {"type", "text"}
       && j.members["type"] == JString("mrkdwn") && j.members["text"].JString?
    then Some(Mrkdwn(j.members["text"].str))
    else None
  }

  function FieldsFromWire(items: seq<Json>): (fields: Option<seq<Field>>) {
    if items == [] then Some([])
    else
      match (FieldFromWire(items[0]), FieldsFromWire(items[1..]))
      case (Some(f), Some(rest)) => Some([f] + rest)
      case _ => None
  }

  /** Reads a block dictionary back; anything but the exact shape of one of the three builders is refused. */
  function FromWire(j: Json): (b: Option<Block>) {
    if !j.JObject? || "type" !in j.members then None
    else
      var m := j.members;
      if m["type"] == JString("divider") && m.Keys == {"type"} then
        Some(Divider)
      else if m["type"] == JString("section") && m.Keys == {"type", "fields"} && m["fields"].JArray? then
        match FieldsFromWire(m["fields"].items)
        case Some(fields) => Some(Section(fields))
        case None => None
      else if m["type"] == JString("header") && m.Keys == {"type", "text"} && m["text"].JObject? then
        var t := m["text"].members;
        if t.Keys == {"type", "text", "emoji"} && t["type"] == JString("plain_text")
           && t["text"].JString? && t["emoji"] == JBool(true)
        then Some(Header(t["text"].str))
        else None
      else None
  }

  lemma {:induction false} FieldsRoundTrip(fields: seq<Field>)
    ensures FieldsFromWire(FieldsWire(fields)) == Some(fields)
  {
    if fields != [] {
      FieldsRoundTrip(fields[1..]);
      assert FieldsWire(fields)[1..] == FieldsWire(fields[1..]);
      assert [fields[0]] + fields[1..] == fields;
    }
  }

  /** Every block's dictionary reads back as that same block. */
  lemma WireRoundTrip(b: Block)
    ensures FromWire(Wire(b)) == Some(b)
  {
    if b.Section? {
      FieldsRoundTrip(b.fields);
    }
  }

  lemma {:induction false} FieldsFromWireExact(items: seq<Json>, fields: seq<Field>)
    requires FieldsFromWire(items) == Some(fields)
    ensures FieldsWire(fields) == items
  {
    if items != [] {
      var f := FieldFromWire(items[0]).value;
      var rest := FieldsFromWire(items[1..]).value;
      FieldsFromWireExact(items[1..], rest);
      var m := items[0].members;
      assert m == map["type" := JString("mrkdwn"), "text" := JString(f.text)];
      assert fields[1..] == rest;
    }
  }

  /** Only the dictionaries the builders produce read back as a block. */
  lemma FromWireExact(j: Json, b: Block)
    requires FromWire(j) == Some(b)
    ensures Wire(b) == j
  {
    var m := j.members;
    match b
    case Divider =>
      assert m == map["type" := JString("divider")];
    case Section(fields) =>
      FieldsFromWireExact(m["fields"].items, fields);
      assert m == map["type" := JString("section"), "fields" := JArray(FieldsWire(fields))];
    case Header(text) =>
      var t := m["text"].members;
      assert t == map["type" := JString("plain_text"), "text" := JString(text), "emoji" := JBool(true)];
      assert m == map["type" := JString("header"), "text" := JObject(t)];
  }

  // ---------------------------------------------------------------------------
  // Dropping absent entries
  // ---------------------------------------------------------------------------

  /** The present entries of `s`, in their order in `s`. */
  function Present<T>(s: seq<Option<T>>): (kept: seq<T>)
    decreases |s|
  {
    if s == [] then []
    else Present(s[..|s| - 1]) + (match s[|s| - 1] case Some(x) => [x] case None => [])
  }

  /** The positions in `s` that hold a present entry, in increasing order. */
  ghost function PresentIndices<T>(s: seq<Option<T>>): (positions: seq<nat>)
    decreases |s|
  {
    if s == [] then []
    else PresentIndices(s[..|s| - 1]) + (if s[|s| - 1].Some? then [|s| - 1] else [])
  }

  /**
   * `Present(s)` is an order-preserving selection from `s`: its k-th entry is the
   * entry of `s` at the k-th present position, the positions increase, and every
   * present position of `s` is selected.
   */
  lemma {:induction false} PresentSelectsInOrder<T>(s: seq<Option<T>>)
    ensures |PresentIndices(s)| == |Present(s)|
    ensures forall k :: 0 <= k < |PresentIndices(s)| ==>
              PresentIndices(s)[k] < |s| && s[PresentIndices(s)[k]] == Some(Present(s)[k])
    ensures forall k, l :: 0 <= k < l < |PresentIndices(s)| ==> PresentIndices(s)[k] < PresentIndices(s)[l]
    ensures forall j :: 0 <= j < |s| && s[j].Some? ==> j in PresentIndices(s)
    decreases |s|
  {
    if s != [] {
      var p := s[..|s| - 1];
      PresentSelectsInOrder(p);
      forall j | 0 <= j < |p| ensures s[j] == p[j] { }
    }
  }

  /** The number of entries kept is the number of present entries. */
  lemma {:induction false} PresentCount<T>(s: seq<Option<T>>)
    ensures |Present(s)| == |set j | 0 <= j < |s| && s[j].Some?|
    decreases |s|
  {
    if s != [] {
      var n := |s| - 1;
      var p := s[..n];
      PresentCount(p);
      var before := set j | 0 <= j < |p| && p[j].Some?;
      var after := set j | 0 <= j < |s| && s[j].Some?;
      if s[n].Some? {
        assert after == before + {n};
        assert n !in before;
      } else {
        assert after == before;
      }
    }
  }

  lemma {:induction false} PresentAppend<T>(a: seq<Option<T>>, b: seq<Option<T>>)
    ensures Present(a + b) == Present(a) + Present(b)
    decreases |b|
  {
    if b != [] {
      var b' := b[..|b| - 1];
      assert (a + b)[..|a + b| - 1] == a + b';
      PresentAppend(a, b');
    } else {
      assert a + b == a;
    }
  }

  /** A list with no absent entry passes through unchanged. */
  lemma {:induction false} PresentAllSome<T>(xs: seq<T>)
    ensures Present(AllSome(xs)) == xs
    decreases |xs|
  {
    if xs != [] {
      var p := xs[..|xs| - 1];
      assert AllSome(xs)[..|xs| - 1] == AllSome(p);
      PresentAllSome(p);
    }
  }

  /** Keeps the non-absent blocks, in order (the block filter of the sender). */
  method ComposeBlocks(blocks: seq<Option<Block>>) returns (composed: seq<Block>)
    ensures composed == Present(blocks)
  {
    composed := [];
    for i := 0 to |blocks|
      invariant composed == Present(blocks[..i])
    {
      assert blocks[..i + 1][..i] == blocks[..i];
      if blocks[i].Some? {
        composed := composed + [blocks[i].value];
      }
    }
    assert blocks[..|blocks|] == blocks;
  }

  // ---------------------------------------------------------------------------
  // Field groups separated by dividers
  // ---------------------------------------------------------------------------

  /** One section per field group, with a divider before every group but the first. */
  function BodyLayout(groups: seq<seq<Field>>): (blocks: seq<Block>)
    decreases |groups|
  {
    if |groups| == 0 then []
    else if |groups| == 1 then [Section(groups[0])]
    else BodyLayout(groups[..|groups| - 1]) + [Divider, Section(groups[|groups| - 1])]
  }

  /**
   * n groups give 2n - 1 blocks (none for no group): the k-th group's section at
   * index 2k, a divider at every odd index.
   */
  lemma {:induction false} BodyLayoutShape(groups: seq<seq<Field>>)
    ensures |BodyLayout(groups)| == if |groups| == 0 then 0 else 2 * |groups| - 1
    ensures forall i :: 0 <= i < |BodyLayout(groups)| ==>
              if i % 2 == 0 then BodyLayout(groups)[i] == Section(groups[i / 2])
              else BodyLayout(groups)[i] == Divider
    decreases |groups|
  {
    if |groups| >= 2 {
      var p := groups[..|groups| - 1];
      BodyLayoutShape(p);
      forall k | 0 <= k < |p| ensures p[k] == groups[k] { }
    }
  }

  /**
   * With at least one group, the layout begins and ends with a section, never a
   * divider (a corollary of the definition, which the verifier unfolds unaided).
   */
  lemma BodyLayoutEnds(groups: seq<seq<Field>>)
    requires |groups| > 0
    ensures BodyLayout(groups)[0] == Section(groups[0])
    ensures BodyLayout(groups)[|BodyLayout(groups)| - 1] == Section(groups[|groups| - 1])
  {
  }

  /** The fields of the sections of `blocks`, in order. */
  function SectionsOf(blocks: seq<Block>): (groups: seq<seq<Field>>)
    decreases |blocks|
  {
    if blocks == [] then []
    else
      SectionsOf(blocks[..|blocks| - 1])
      + (match blocks[|blocks| - 1] case Section(fields) => [fields] case _ => [])
  }

  /** Reading the sections back out of the layout gives the groups it was built from. */
  lemma {:induction false} SectionsOfBodyLayout(groups: seq<seq<Field>>)
    ensures SectionsOf(BodyLayout(groups)) == groups
    decreases |groups|
  {
    var n := |groups|;
    if n == 1 {
      assert [Section(groups[0])][..0] == [];
    } else if n >= 2 {
      var p := groups[..n - 1];
      var a := BodyLayout(p);
      SectionsOfBodyLayout(p);
      var withDivider := a + [Divider];
      assert (a + [Divider, Section(groups[n - 1])])[..|a| + 1] == withDivider;
      assert withDivider[..|a|] == a;
      assert p + [groups[n - 1]] == groups;
    }
  }

  /** Builds the layout of the field groups (the body-block builder). */
  method GetBodyBlocks(fieldsGroup: seq<seq<Field>>) returns (blocks: seq<Block>)
    ensures blocks == BodyLayout(fieldsGroup)
  {
    blocks := [];
    for i := 0 to |fieldsGroup|
      invariant blocks == BodyLayout(fieldsGroup[..i])
    {
      assert fieldsGroup[..i + 1][..i] == fieldsGroup[..i];
      if i != 0 {
        blocks := blocks + [Divider];
      }
      blocks := blocks + [Section(fieldsGroup[i])];
    }
    assert fieldsGroup[..|fieldsGroup|] == fieldsGroup;
  }
}
