/** Violation descriptors: which schema keyword failed and where in the
    request body, in the shape ajv reports them (`keyword`, `dataPath`). */
module Report {

  /** One step of a path into the body: a property name or an array index. */
  datatype Step = Key(name: string) | Index(i: nat)

  type Path = seq<Step>

  datatype Keyword =
    | Type                              // the value has the wrong JSON type
    | Minimum                           // an integer below `minimum: 0`
    | MinItems                          // an array shorter than `minItems: 1`
    | Required(missing: string)         // a required property is absent
    | AdditionalProperties(extra: string) // a property the schema does not declare

  datatype Violation = Violation(keyword: Keyword, path: Path)

  /** The keyword name ajv puts in an error's `keyword` field. */
  function KeywordName(k: Keyword): (name: string)
  {
    match k
    case Type => "type"
    case Minimum => "minimum"
    case MinItems => "minItems"
    case Required(_) => "required"
    case AdditionalProperties(_) => "additionalProperties"
  }

  function DigitChar(d: nat): (c: char)
    requires d < 10
    ensures '0' <= c <= '9' && c as int - '0' as int == d
  {
    "0123456789"[d]
  }

  /** The number a string of decimal digits denotes, most significant digit
      first. */
  function DigitsValue(s: string): (v: nat)
    requires forall i :: 0 <= i < |s| ==> '0' <= s[i] <= '9'
  {
    if |s| == 0 then 0
    else DigitsValue(s[..|s| - 1]) * 10 + (s[|s| - 1] as int - '0' as int)
  }

  /** Decimal notation of a natural number, without leading zeros: the
      digits denote `n`. */
  function NatText(n: nat): (r: string)
    ensures 1 <= |r|
    ensures forall i :: 0 <= i < |r| ==> '0' <= r[i] <= '9'
    ensures DigitsValue(r) == n
    ensures r[0] == '0' ==> n == 0
  {
    if n < 10 then [DigitChar(n)]
    else
      var front := NatText(n / 10);
      var r := front + [DigitChar(n % 10)];
      assert r[..|r| - 1] == front;
      r
  }

  /** One step of a path in ajv's `dataPath` notation. A key is written
      `.name`, which is how ajv writes a key that is an identifier; every
      key the validator puts in a path is a schema property name, and all
      of those are identifiers (ajv would write any other key as
      `['name']`). */
  function StepText(s: Step): (text: string)
  {
    match s
    case Key(name) => "." + name
    case Index(i) => "[" + NatText(i) + "]"
  }

  /** A path in ajv's `dataPath` notation, e.g. `.payload[0].episodeCount`. */
  function PathText(p: Path): (text: string)
  {
    if |p| == 0 then "" else StepText(p[0]) + PathText(p[1..])
  }

  /** Rendering a path renders its steps one after the other. */
  lemma {:induction false} PathTextAppend(p: Path, q: Path)
    ensures PathText(p + q) == PathText(p) + PathText(q)
  {
    if |p| == 0 {
      assert p + q == q;
    } else {
      assert (p + q)[0] == p[0];
      assert (p + q)[1..] == p[1..] + q;
      PathTextAppend(p[1..], q);
    }
  }

  lemma PathTextStep(s: Step)
    ensures PathText([s]) == StepText(s)
  {
    assert [s][1..] == [];
  }
}
