/** The typed status dictionary: every captured value is coerced in turn to a
    bool, an int or a float, and kept as a string when none applies; five
    free-text tags are never coerced. */
module Coercion {
  import opened Outcomes
  import opened Text
  import opened Reply
  import opened ReplyLaws

  /** A value of the status dictionary. A float keeps the text it was read
      from: floating-point arithmetic is not modelled. */
  datatype Value = Str(text: string) | Bool(flag: bool) | Int(number: int) | Float(literal: string)

  type Snapshot = map<string, Value>

  /** The keys whose values are always left as strings. */
  const Textual: set<string> := {"artist", "album", "comment", "date", "genre"}

  // ---------------------------------------------------------------------
  // Python 2's float() of a string: surrounding whitespace, one optional
  // sign, then a decimal mantissa with an optional exponent, or one of the
  // words inf, infinity and nan in any case.
  // ---------------------------------------------------------------------

  function Unsigned(s: string): (t: string)
    ensures |t| <= |s|
  {
    if s != [] && (s[0] == '+' || s[0] == '-') then s[1..] else s
  }

  /** How many leading characters are decimal digits. */
  function DigitRun(s: string): (n: nat)
    ensures n <= |s|
  {
    if s != [] && IsDigit(s[0]) then 1 + DigitRun(s[1..]) else 0
  }

  lemma {:induction false} DigitRunAll(s: string)
    requires AllDigits(s)
    ensures DigitRun(s) == |s|
  {
    if s != [] {
      DigitRunAll(s[1..]);
    }
  }

  /** Nothing, or `e`/`E`, an optional sign and at least one digit. */
  predicate IsExponent(s: string) {
    s == [] || ((s[0] == 'e' || s[0] == 'E') && Unsigned(s[1..]) != [] && AllDigits(Unsigned(s[1..])))
  }

  /** `digits [. digits] [exponent]` or `. digits [exponent]`, with at least
      one digit in the mantissa. */
  predicate IsDecimalFloat(t: string) {
    var whole := DigitRun(t);
    var rest := t[whole..];
    if rest != [] && rest[0] == '.' then
      var frac := DigitRun(rest[1..]);
      whole + frac > 0 && IsExponent(rest[1..][frac..])
    else
      whole > 0 && IsExponent(rest)
  }

  predicate IsFloatText(s: string) {
    var t := Unsigned(Strip(s));
    IsDecimalFloat(t) || Lower(t) in {"inf", "infinity", "nan"}
  }

  /** Every text int() accepts, float() accepts as well: the float attempt
      only ever sees what the int attempt refused. */
  lemma IntTextIsFloatText(s: string)
    requires ParseInt(s).Some?
    ensures IsFloatText(s)
  {
    var t := Unsigned(Strip(s));
    assert t != [] && AllDigits(t);
    DigitRunAll(t);
    assert t[|t|..] == [];
  }

  // ---------------------------------------------------------------------
  // The coercion of one value, and of the whole dictionary.
  // ---------------------------------------------------------------------

  /** The value `status()` stores under `key` for the captured text `raw`. */
  function Coerce(key: string, raw: string): Value {
    if key in Textual then Str(raw)
    else if raw == "true" then Bool(true)
    else if raw == "false" then Bool(false)
    else
      match ParseInt(raw)
      case Some(n) => Int(n)
      case None => if IsFloatText(raw) then Float(raw) else Str(raw)
  }

  /** `v` is what the text `raw` reads as: the same string, the bool it
      spells, the int it denotes, or the float literal it is. */
  predicate ReadsAs(v: Value, raw: string) {
    match v
    case Str(t) => t == raw
    case Bool(b) => raw == (if b then "true" else "false")
    case Int(n) => ParseInt(raw) == Some(n)
    case Float(t) => t == raw && IsFloatText(raw)
  }

  /** Coercion invents nothing: every coerced value reads back as its text,
      textual keys keep the text, and a value is left a string only when
      none of the three conversions applies. */
  lemma CoerceReadsAs(key: string, raw: string)
    ensures ReadsAs(Coerce(key, raw), raw)
    ensures key in Textual ==> Coerce(key, raw) == Str(raw)
    ensures key !in Textual && Coerce(key, raw).Str? ==>
              raw != "true" && raw != "false" && ParseInt(raw).None? && !IsFloatText(raw)
  {
  }

  /** A numeral under a key that is not textual becomes that number; under a
      textual key (`date 2020`) it stays a string. */
  lemma CoerceNumeral(key: string, n: int)
    ensures Coerce(key, IntText(n)) == if key in Textual then Str(IntText(n)) else Int(n)
  {
    IntTextRoundTrip(n);
    var s := IntText(n);
    assert s[0] == '-' || IsDigit(s[0]);
  }

  /** A word that begins with a lower-case letter other than the first
      letters of `inf` and `nan`, and that spells neither bool, stays a
      string. */
  lemma WordStaysText(key: string, w: string)
    requires key !in Textual && w != "true" && w != "false"
    requires w != [] && 'a' <= w[0] <= 'z' && w[0] != 'i' && w[0] != 'n'
    requires !IsSpace(w[|w| - 1])
    ensures Coerce(key, w) == Str(w)
  {
    StripUnpadded(w);
    assert ParseInt(w).None? by {
      assert !IsDigit(w[0]);
    }
    assert !IsDecimalFloat(w) by {
      assert DigitRun(w) == 0;
    }
    assert Lower(w) !in {"inf", "infinity", "nan"} by {
      assert Lower(w)[0] == w[0];
      assert "inf"[0] == 'i' && "infinity"[0] == 'i' && "nan"[0] == 'n';
    }
  }

  /** The dictionary after the coercion loop: the same keys, each value
      coerced. */
  function Coerced(d: map<string, string>): Snapshot {
    map k | k in d :: Coerce(k, d[k])
  }

  /** The loop of `status()` that overwrites the entries of the freshly built
      dictionary one key at a time. */
  method CoerceAll(d: map<string, string>) returns (m: Snapshot)
    ensures m.Keys == d.Keys
    ensures forall k :: k in d ==> m[k] == Coerce(k, d[k])
  {
    m := map k | k in d :: Str(d[k]);
    var todo := d.Keys;
    while todo != {}
      invariant todo <= d.Keys
      invariant m.Keys == d.Keys
      invariant forall k :: k in d && k !in todo ==> m[k] == Coerce(k, d[k])
      invariant forall k :: k in todo ==> m[k] == Str(d[k])
      decreases todo
    {
      var k :| k in todo;
      m := CoerceEntry(m, k, d[k]);
      todo := todo - {k};
    }
  }

  /** One pass of the loop body: a textual key is skipped, `true` and
      `false` become bools, then int() and float() are tried in turn; when
      both refuse, the string stays. */
  method CoerceEntry(m: Snapshot, k: string, v: string) returns (m': Snapshot)
    requires k in m && m[k] == Str(v)
    ensures m'.Keys == m.Keys && m'[k] == Coerce(k, v)
    ensures forall j :: j in m && j != k ==> m'[j] == m[j]
  {
    m' := m;
    if k in Textual {
      return;
    }
    if v == "true" {
      m' := m[k := Bool(true)];
    } else if v == "false" {
      m' := m[k := Bool(false)];
    } else {
      var n := ParseInt(v);
      if n.Some? {
        m' := m[k := Int(n.value)];
        return;
      }
      if IsFloatText(v) {
        m' := m[k := Float(v)];
      }
    }
  }

  /** What `status()` returns for a reply. */
  function Parse(reply: string): Snapshot {
    Coerced(Dict(FindAll(reply)))
  }

  /** The snapshot holds exactly the keys the reply's lines captured: none is
      added, none is dropped. */
  lemma ParseKeys(reply: string)
    ensures Parse(reply).Keys == set e | e in FindAll(reply) :: e.key
  {
    DictKeys(FindAll(reply));
  }

  /** A line `key value` between complete lines, whose key no later line
      repeats, puts the coerced value under `key`. */
  lemma FieldParsed(before: string, k: string, v: string, after: string)
    requires before == [] || before[|before| - 1] == '\n'
    requires IsWord(k) && !StartsWith(k, "tag") && !StartsWith(k, "set")
    requires '\n' !in v
    requires forall e :: e in FindAll(after) ==> e.key != k
    ensures k in Parse(before + Line(k, v) + after)
    ensures Parse(before + Line(k, v) + after)[k] == Coerce(k, v)
  {
    var reply := before + Line(k, v) + after;
    var d := Dict(FindAll(reply));
    assert k in d && d[k] == v by {
      LineBetween(before, k, v, after);
      LastPairWins(FindAll(before), Entry(k, v), FindAll(after));
    }
    CoercedAt(d, k);
  }

  /** A pair that no later pair overrides gives its key its value. */
  lemma LastPairWins(x: seq<Entry>, p: Entry, z: seq<Entry>)
    requires forall e :: e in z ==> e.key != p.key
    ensures p.key in Dict(x + [p] + z) && Dict(x + [p] + z)[p.key] == p.value
  {
    var es := x + [p] + z;
    var i := |x|;
    assert es[i] == p;
    forall j | i < j < |es| ensures es[j].key != p.key {
      assert es[j] == z[j - i - 1];
    }
    DictLastWins(es, i);
  }

  lemma CoercedAt(d: map<string, string>, k: string)
    requires k in d
    ensures k in Coerced(d) && Coerced(d)[k] == Coerce(k, d[k])
  {
  }

  lemma LineBetween(before: string, k: string, v: string, after: string)
    requires before == [] || before[|before| - 1] == '\n'
    requires IsWord(k) && !StartsWith(k, "tag") && !StartsWith(k, "set")
    requires '\n' !in v
    ensures FindAll(before + Line(k, v) + after) == FindAll(before) + [Entry(k, v)] + FindAll(after)
  {
    var line := Line(k, v);
    LineShape(k, v);
    assert (before + line)[|before + line| - 1] == '\n';
    FindAllSplit(before + line, after);
    FindAllSplit(before, line);
    BareLine(k, v);
  }
}
