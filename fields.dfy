/**
 * Rendering one key/value dictionary as the `mrkdwn` fields of a section.
 * A dictionary is modelled as its items in iteration order, each key and value
 * already turned into its string form by the f-string that formats it.
 */
module Fields {
  import opened Wrappers
  import opened Blocks

  /** The string forms of a key and of its value, as the f-strings convert them. */
  type Pair = (string, string)

  /** A dictionary, as its items in iteration order. */
  type Dict = seq<Pair>

  /** The fixed number of pairs that start and progress notices show per group. */
  const MaxFieldsPerGroup: nat := 10

  /**
   * The three ways a lifecycle notice writes one pair:
   * start and progress put the value on its own line (`*key:* \nvalue`),
   * error writes `*key:* value`, result writes `*key* : value`.
   */
  datatype FieldStyle = KeyNewlineValue | KeyColonValue | KeySpaceColonValue

  /** The characters a style puts between the key and the value. */
  function Separator(style: FieldStyle): (sep: string) {
    match style
    case KeyNewlineValue => ":* \n"
    case KeyColonValue => ":* "
    case KeySpaceColonValue => "* : "
  }

  /** The text of one field: the key in bold, the separator, then the value. */
  function FieldText(style: FieldStyle, key: string, value: string): (text: string) {
    "*" + key + Separator(style) + value
  }

  function Min(a: nat, b: nat): (m: nat) {
    if a <= b then a else b
  }

  /** Every pair of `pairs`, in order, as a field of the given style. */
  function Rendered(style: FieldStyle, pairs: Dict): (fields: seq<Field>) {
    seq(|pairs|, k requires 0 <= k < |pairs| => Mrkdwn(FieldText(style, pairs[k].0, pairs[k].1)))
  }

  /** The pairs that a capped group keeps: the first ten in iteration order. */
  function Capped(pairs: Dict): (kept: Dict) {
    pairs[..Min(MaxFieldsPerGroup, |pairs|)]
  }

  /** The groups of a start or progress notice: one capped group per dictionary, none when absent. */
  function CappedGroups(optionals: Option<seq<Dict>>): (groups: seq<seq<Field>>) {
    match optionals
    case None => []
    case Some(ds) => seq(|ds|, k requires 0 <= k < |ds| => Rendered(KeyNewlineValue, Capped(ds[k])))
  }

  /**
   * Renders one dictionary of a start or progress notice, stopping after the
   * tenth pair.
   */
  method RenderCapped(pairs: Dict) returns (fields: seq<Field>)
    ensures |fields| == Min(MaxFieldsPerGroup, |pairs|)
    ensures forall k :: 0 <= k < |fields| ==>
              fields[k] == Mrkdwn("*" + pairs[k].0 + ":* \n" + pairs[k].1)
    ensures fields == Rendered(KeyNewlineValue, Capped(pairs))
  {
    fields := [];
    var i := 0;
    while i < |pairs|
      invariant 0 <= i <= |pairs| && i <= MaxFieldsPerGroup
      invariant fields == Rendered(KeyNewlineValue, pairs[..i])
    {
      if i > 9 {
        break;
      }
      var (key, value) := pairs[i];
      fields := fields + [Mrkdwn(FieldText(KeyNewlineValue, key, value))];
      i := i + 1;
    }
    assert i == Min(MaxFieldsPerGroup, |pairs|);
  }

  /** Renders every dictionary of a start or progress notice, each capped. */
  method RenderGroups(optionals: Option<seq<Dict>>) returns (groups: seq<seq<Field>>)
    ensures |groups| == if optionals.None? then 0 else |optionals.value|
    ensures forall k :: 0 <= k < |groups| ==>
              |groups[k]| == Min(MaxFieldsPerGroup, |optionals.value[k]|)
    ensures groups == CappedGroups(optionals)
  {
    groups := [];
    if optionals.Some? {
      var ds := optionals.value;
      for i := 0 to |ds|
        invariant |groups| == i
        invariant forall k :: 0 <= k < i ==> groups[k] == Rendered(KeyNewlineValue, Capped(ds[k]))
      {
        var fields := RenderCapped(ds[i]);
        groups := groups + [fields];
      }
    }
  }

  /** Renders every pair of an error or result notice, with no cap. */
  method RenderAll(style: FieldStyle, pairs: Dict) returns (fields: seq<Field>)
    ensures |fields| == |pairs|
    ensures forall k :: 0 <= k < |pairs| ==>
              fields[k] == Mrkdwn("*" + pairs[k].0 + Separator(style) + pairs[k].1)
    ensures fields == Rendered(style, pairs)
  {
    fields := [];
    for i := 0 to |pairs|
      invariant fields == Rendered(style, pairs[..i])
    {
      var (key, value) := pairs[i];
      fields := fields + [Mrkdwn(FieldText(style, key, value))];
    }
    assert pairs[..|pairs|] == pairs;
  }
}
