/** Values, errors and Python string primitives shared by every module of the model. */
module Base {

  datatype Option<+T> = None | Some(value: T)

  /** A Python call either returns a value or raises one of the exceptions below. */
  datatype Result<+T> = Ok(value: T) | Err(error: Error)

  /** The exceptions the modelled code raises or lets escape. */
  datatype Error =
    | ValueError(msg: string)      // explicit `raise ValueError(...)`, or `list.index` of a missing item
    | KeyError(key: string)        // a dict subscript of an absent key
    | IndexError                   // a list subscript past the end
    | AttributeError               // an attribute the object does not have
    | TypeError                    // an operation applied to a value of the wrong type
    | StopIteration                // `next` on an exhausted iterator
    | NotFound(id: string)         // a remote lookup the provider answers with "not found"
    | Exit(status: int)            // `sys.exit(status)`

  /** A chat message `{"role": ..., "content": ...}`. */
  datatype Message = Message(role: string, content: string)

  /**
   * A value stored in one of the configuration dictionaries. `Null` is Python's
   * `None`; temperatures and `top_p` are opaque numbers that are only compared
   * for identity, never computed with.
   */
  datatype Value =
    | Null
    | Str(s: string)
    | Number(x: real)
    | Flag(b: bool)
    | Messages(ms: seq<Message>)

  /** A configuration dictionary (`WrapperConfig`, `AssistantConfig`, `ModelOverrides`). */
  type Config = map<string, Value>

  /** `d.get(key)` in Python: a missing key reads as `None`. */
  function Get(d: Config, key: string): (v: Value)
    ensures key !in d ==> v == Null
    ensures key in d ==> v == d[key]
  {
    if key in d then d[key] else Null
  }

  predicate StartsWith(s: string, prefix: string)
  {
    |prefix| <= |s| && s[..|prefix|] == prefix
  }

  /** `str.isspace()` for one character: the characters Python's `str.split()` and `str.strip()` treat as whitespace. */
  predicate IsSpace(c: char)
  {
    var n := c as int;
    (9 <= n <= 13) || (28 <= n <= 32) || n == 0x85 || n == 0xA0 || n == 0x1680
    || (0x2000 <= n <= 0x200A) || n == 0x2028 || n == 0x2029 || n == 0x202F
    || n == 0x205F || n == 0x3000
  }

  /** `s.lstrip()` */
  function LStrip(s: string): (r: string)
    ensures |r| <= |s| && r == s[|s| - |r|..]
    ensures r == [] || !IsSpace(r[0])
    ensures forall i :: 0 <= i < |s| - |r| ==> IsSpace(s[i])
  {
    if s != [] && IsSpace(s[0]) then LStrip(s[1..]) else s
  }

  /** `s.rstrip()` */
  function RStrip(s: string): (r: string)
    ensures |r| <= |s| && r == s[..|r|]
    ensures r == [] || !IsSpace(r[|r| - 1])
    ensures forall i :: |r| <= i < |s| ==> IsSpace(s[i])
  {
    if s != [] && IsSpace(s[|s| - 1]) then RStrip(s[..|s| - 1]) else s
  }

  /** `s.strip()`: whitespace is cut from both ends, and only whitespace is cut. */
  function Strip(s: string): (r: string)
    ensures |r| <= |s|
    ensures r == [] || (!IsSpace(r[0]) && !IsSpace(r[|r| - 1]))
    ensures r == [] <==> forall i :: 0 <= i < |s| ==> IsSpace(s[i])
  {
    RStrip(LStrip(s))
  }

  /** `lstrip` skips a whitespace prefix and stops at the first other character. */
  lemma {:induction false} LStripSpaces(a: string, t: string)
    requires forall i :: 0 <= i < |a| ==> IsSpace(a[i])
    requires t == [] || !IsSpace(t[0])
    ensures LStrip(a + t) == t
  {
    if a == [] {
      assert a + t == t;
    } else {
      assert (a + t)[1..] == a[1..] + t;
      LStripSpaces(a[1..], t);
    }
  }

  /** `rstrip` drops a whitespace suffix and stops at the last other character. */
  lemma {:induction false} RStripSpaces(t: string, b: string)
    requires forall i :: 0 <= i < |b| ==> IsSpace(b[i])
    requires t == [] || !IsSpace(t[|t| - 1])
    ensures RStrip(t + b) == t
  {
    if b == [] {
      assert t + b == t;
    } else {
      assert (t + b)[..|t + b| - 1] == t + b[..|b| - 1];
      RStripSpaces(t, b[..|b| - 1]);
    }
  }

  /** `strip` keeps exactly the text between the surrounding whitespace. */
  lemma StripSurrounded(a: string, w: string, b: string)
    requires forall i :: 0 <= i < |a| ==> IsSpace(a[i])
    requires forall i :: 0 <= i < |b| ==> IsSpace(b[i])
    requires w != [] && !IsSpace(w[0]) && !IsSpace(w[|w| - 1])
    ensures Strip(a + w + b) == w
  {
    assert a + w + b == a + (w + b);
    LStripSpaces(a, w + b);
    RStripSpaces(w, b);
  }

  /** `sep.join(parts)` */
  function Join(parts: seq<string>, sep: string): string
  {
    if parts == [] then []
    else if |parts| == 1 then parts[0]
    else parts[0] + sep + Join(parts[1..], sep)
  }

  /** `"".join(parts)` */
  function Concat(parts: seq<string>): string
  {
    if parts == [] then [] else parts[0] + Concat(parts[1..])
  }

  lemma {:induction false} ConcatAppend(a: seq<string>, b: seq<string>)
    ensures Concat(a + b) == Concat(a) + Concat(b)
  {
    if a != [] {
      assert (a + b)[1..] == a[1..] + b;
      ConcatAppend(a[1..], b);
    } else {
      assert a + b == b;
    }
  }

  function DigitChar(d: nat): (c: char)
    requires d < 10
    ensures '0' <= c <= '9'
    ensures c as int - '0' as int == d
  {
    (('0' as int) + d) as char
  }

  /** The number a string of decimal digits spells, most significant digit first. */
  function DecimalValue(s: string): int
  {
    if s == [] then 0 else 10 * DecimalValue(s[..|s| - 1]) + (s[|s| - 1] as int - '0' as int)
  }

  /** `str(n)` for a non-negative integer, in decimal without leading zeros. */
  function NatToString(n: nat): (r: string)
    ensures r != []
    ensures forall i :: 0 <= i < |r| ==> '0' <= r[i] <= '9'
    ensures DecimalValue(r) == n
    ensures r[0] == '0' <==> n == 0
    ensures n == 0 ==> r == "0"
  {
    if n < 10 then [DigitChar(n)]
    else
      var r := NatToString(n / 10) + [DigitChar(n % 10)];
      assert r[..|r| - 1] == NatToString(n / 10);
      r
  }

  /** Distinct numbers print differently, so `str(i)` identifies `i`. */
  lemma NatToStringInjective(m: nat, n: nat)
    requires NatToString(m) == NatToString(n)
    ensures m == n
  {
  }
}
