/**
  The per-element wire codec. A type is any nesting of u64, bool, unit, bytes, vec
  and set; a value of a type is encoded by appending to a buffer and decoded from a
  cursor that moves past exactly the bytes it consumed.

  `cap` is `usize::MAX` of the machine: no collection in memory is longer, and a
  length prefix above it is refused rather than truncated.
*/
module Codec {
  import opened Wrappers

  const U64_MAX: nat := 0xFFFF_FFFF_FFFF_FFFF

  type Byte = b: int | 0 <= b < 256

  /** What an `Invalid` error names. */
  datatype What =
    | BoolByte | UnitByte | BytesLength | VecLength | SetLength
    | ZeroWidthVecElement | ZeroWidthSetElement | NotAscending | TrailingBytes

  datatype DecodeError = UnexpectedEof | Invalid(what: What)

  datatype Result<+T> = Ok(value: T) | Err(error: DecodeError)

  /** What a decoder finds at the front of some bytes: a value and how many bytes it took. */
  datatype Parse<+T> = Done(value: T, used: nat) | Fail(error: DecodeError)

  datatype Ty = TU64 | TBool | TUnit | TBytes | TVec(elem: Ty) | TSet(elem: Ty)

  /** A set is held as its elements in ascending order, the order a `BTreeSet` iterates in. */
  datatype Value =
    | U64(n: nat)
    | Bool(b: bool)
    | Unit
    | Bytes(bytes: seq<Byte>)
    | Vec(items: seq<Value>)
    | Set(items: seq<Value>)

  ghost predicate HasType(t: Ty, v: Value, cap: nat)
    decreases t
  {
    match t
    case TU64 => v.U64? && v.n <= U64_MAX
    case TBool => v.Bool?
    case TUnit => v.Unit?
    case TBytes => v.Bytes? && |v.bytes| <= cap
    case TVec(e) => v.Vec? && |v.items| <= cap && forall i :: 0 <= i < |v.items| ==> HasType(e, v.items[i], cap)
    case TSet(e) =>
      && v.Set? && |v.items| <= cap && Ascending(v.items)
      && forall i :: 0 <= i < |v.items| ==> HasType(e, v.items[i], cap)
  }

  // ---- The order of values of one type ---------------------------------------------------------

  predicate LessScalar(a: Value, b: Value) {
    match (a, b)
    case (U64(x), U64(y)) => x < y
    case (Bool(x), Bool(y)) => !x && y
    case (Bytes(x), Bytes(y)) => LexBytes(x, y)
    case _ => false
  }

  predicate Less(a: Value, b: Value)
    decreases a, 1
  {
    if (a.Vec? && b.Vec?) || (a.Set? && b.Set?) then LexItems(a.items, b.items) else LessScalar(a, b)
  }

  predicate LexBytes(a: seq<Byte>, b: seq<Byte>) {
    b != [] && (a == [] || a[0] < b[0] || (a[0] == b[0] && LexBytes(a[1..], b[1..])))
  }

  predicate LexItems(a: seq<Value>, b: seq<Value>)
    decreases a, 0
  {
    b != [] && (a == [] || Less(a[0], b[0]) || (a[0] == b[0] && LexItems(a[1..], b[1..])))
  }

  ghost predicate Ascending(s: seq<Value>) {
    forall i :: 0 <= i < |s| - 1 ==> Less(s[i], s[i + 1])
  }

  /** Of two values of one type exactly one of `a < b`, `a == b`, `b < a` holds. */
  lemma {:induction false} Trichotomy(t: Ty, a: Value, b: Value, cap: nat)
    requires HasType(t, a, cap) && HasType(t, b, cap)
    ensures Less(a, b) || a == b || Less(b, a)
    ensures !(Less(a, b) && Less(b, a)) && !(Less(a, b) && a == b)
    decreases t, 0
  {
    match t {
      case TU64 | TBool | TUnit =>
      case TBytes => TrichotomyBytes(a.bytes, b.bytes);
      case TVec(e) => TrichotomyItems(e, a.items, b.items, cap);
      case TSet(e) => TrichotomyItems(e, a.items, b.items, cap);
    }
  }

  lemma {:induction false} TrichotomyBytes(a: seq<Byte>, b: seq<Byte>)
    ensures LexBytes(a, b) || a == b || LexBytes(b, a)
    ensures !(LexBytes(a, b) && LexBytes(b, a)) && !LexBytes(a, a)
  {
    if a != [] {
      TrichotomyBytes(a[1..], if b == [] then [] else b[1..]);
      if b != [] && a[0] == b[0] && a[1..] == b[1..] {
        assert a == [a[0]] + a[1..] && b == [b[0]] + b[1..];
      }
    }
  }

  lemma {:induction false} TrichotomyItems(e: Ty, a: seq<Value>, b: seq<Value>, cap: nat)
    requires forall i :: 0 <= i < |a| ==> HasType(e, a[i], cap)
    requires forall i :: 0 <= i < |b| ==> HasType(e, b[i], cap)
    ensures LexItems(a, b) || a == b || LexItems(b, a)
    ensures !(LexItems(a, b) && LexItems(b, a)) && !(LexItems(a, b) && a == b)
    decreases e, 1, |a|
  {
    if a != [] && b != [] {
      Trichotomy(e, a[0], b[0], cap);
      TrichotomyItems(e, a[1..], b[1..], cap);
      if a[0] == b[0] && a[1..] == b[1..] {
        assert a == [a[0]] + a[1..] && b == [b[0]] + b[1..];
      }
    }
  }

  lemma {:induction false} Transitive(t: Ty, a: Value, b: Value, c: Value, cap: nat)
    requires HasType(t, a, cap) && HasType(t, b, cap) && HasType(t, c, cap)
    requires Less(a, b) && Less(b, c)
    ensures Less(a, c)
    decreases t, 0
  {
    match t {
      case TU64 | TBool | TUnit =>
      case TBytes => TransitiveBytes(a.bytes, b.bytes, c.bytes);
      case TVec(e) => TransitiveItems(e, a.items, b.items, c.items, cap);
      case TSet(e) => TransitiveItems(e, a.items, b.items, c.items, cap);
    }
  }

  lemma {:induction false} TransitiveBytes(a: seq<Byte>, b: seq<Byte>, c: seq<Byte>)
    requires LexBytes(a, b) && LexBytes(b, c)
    ensures LexBytes(a, c)
  {
    if a != [] && a[0] == b[0] == c[0] {
      TransitiveBytes(a[1..], b[1..], c[1..]);
    }
  }

  lemma {:induction false} TransitiveItems(e: Ty, a: seq<Value>, b: seq<Value>, c: seq<Value>, cap: nat)
    requires forall i :: 0 <= i < |a| ==> HasType(e, a[i], cap)
    requires forall i :: 0 <= i < |b| ==> HasType(e, b[i], cap)
    requires forall i :: 0 <= i < |c| ==> HasType(e, c[i], cap)
    requires LexItems(a, b) && LexItems(b, c)
    ensures LexItems(a, c)
    decreases e, 1, |a|
  {
    if a != [] {
      if Less(a[0], b[0]) && Less(b[0], c[0]) {
        Transitive(e, a[0], b[0], c[0], cap);
      } else if a[0] == b[0] == c[0] {
        Trichotomy(e, a[0], a[0], cap);
        TransitiveItems(e, a[1..], b[1..], c[1..], cap);
      }
    }
  }

  /** Every element of an ascending list is below all that follow it. */
  lemma {:induction false} AscendingIsSorted(t: Ty, s: seq<Value>, i: nat, j: nat, cap: nat)
    requires Ascending(s) && i < j < |s|
    requires forall k :: 0 <= k < |s| ==> HasType(t, s[k], cap)
    ensures Less(s[i], s[j])
    decreases j
  {
    assert Less(s[j - 1], s[j - 1 + 1]);
    if i < j - 1 {
      AscendingIsSorted(t, s, i, j - 1, cap);
      Transitive(t, s[i], s[j - 1], s[j], cap);
    }
  }

  /** The ascending list of a set's elements is unique, so the list stands for the set. */
  lemma {:induction false} SetFormUnique(t: Ty, a: seq<Value>, b: seq<Value>, cap: nat)
    requires Ascending(a) && Ascending(b)
    requires forall k :: 0 <= k < |a| ==> HasType(t, a[k], cap)
    requires forall k :: 0 <= k < |b| ==> HasType(t, b[k], cap)
    requires forall v :: v in a <==> v in b
    ensures a == b
    decreases |a|
  {
    assert (a == []) == (b == []) by {
      if a != [] { assert a[0] in b; }
      if b != [] { assert b[0] in a; }
    }
    if a != [] {
      assert a[0] in b && b[0] in a;
      HeadIsLeast(t, a, cap);
      HeadIsLeast(t, b, cap);
      Trichotomy(t, a[0], b[0], cap);
      assert a[0] == b[0];
      forall v ensures v in a[1..] <==> v in b[1..] {
        if v in a[1..] {
          assert v in a;
        }
        if v in b[1..] {
          assert v in b;
        }
      }
      assert Ascending(a[1..]) && Ascending(b[1..]);
      SetFormUnique(t, a[1..], b[1..], cap);
      assert a == [a[0]] + a[1..] && b == [b[0]] + b[1..];
    }
  }

  lemma HeadIsLeast(t: Ty, s: seq<Value>, cap: nat)
    requires s != [] && Ascending(s)
    requires forall k :: 0 <= k < |s| ==> HasType(t, s[k], cap)
    ensures forall v :: v in s[1..] ==> Less(s[0], v) && v != s[0]
    ensures s[0] !in s[1..]
  {
    forall v | v in s[1..] ensures Less(s[0], v) && v != s[0] {
      var k :| 0 <= k < |s[1..]| && s[1..][k] == v;
      AscendingIsSorted(t, s, 0, k + 1, cap);
      Trichotomy(t, s[0], v, cap);
    }
  }

  // ---- Little-endian words -----------------------------------------------------------------------

  function Pow256(k: nat): (r: nat)
    ensures r > 0
  {
    if k == 0 then 1 else 256 * Pow256(k - 1)
  }

  function ToLe(n: nat, k: nat): (s: seq<Byte>)
    ensures |s| == k
  {
    if k == 0 then [] else [n % 256] + ToLe(n / 256, k - 1)
  }

  function FromLe(s: seq<Byte>): nat {
    if s == [] then 0 else s[0] + 256 * FromLe(s[1..])
  }

  lemma {:induction false} LeRoundTrip(n: nat, k: nat)
    requires n < Pow256(k)
    ensures FromLe(ToLe(n, k)) == n
  {
    if k > 0 {
      LeRoundTrip(n / 256, k - 1);
      assert ToLe(n, k)[1..] == ToLe(n / 256, k - 1);
    }
  }

  lemma LowByte(b: Byte, m: nat)
    ensures (b + 256 * m) % 256 == b && (b + 256 * m) / 256 == m
  {
  }

  lemma HeadTail<T>(s: seq<T>)
    requires s != []
    ensures [s[0]] + s[1..] == s
  {
  }

  lemma {:induction false} LeCanonical(s: seq<Byte>)
    ensures FromLe(s) < Pow256(|s|) && ToLe(FromLe(s), |s|) == s
  {
    if s != [] {
      LeCanonical(s[1..]);
      var m := FromLe(s[1..]);
      LowByte(s[0], m);
      HeadTail(s);
    }
  }

  lemma Pow256Of8()
    ensures Pow256(8) == U64_MAX + 1
  {
    assert Pow256(4) == 0x1_0000_0000;
    assert Pow256(8) == 256 * (256 * (256 * (256 * Pow256(4))));
  }

  // ---- Encoding ------------------------------------------------------------------------------------

  function Enc(v: Value): seq<Byte>
    decreases v, 1
  {
    match v
    case U64(n) => ToLe(n, 8)
    case Bool(b) => [if b then 1 else 0]
    case Unit => [0]
    case Bytes(bytes) => ToLe(|bytes|, 8) + bytes
    case Vec(items) => ToLe(|items|, 8) + EncAll(items)
    case Set(items) => ToLe(|items|, 8) + EncAll(items)
  }

  function EncAll(items: seq<Value>): seq<Byte>
    decreases items, 0
  {
    if items == [] then [] else Enc(items[0]) + EncAll(items[1..])
  }

  lemma {:induction false} EncAllSplit(a: seq<Value>, b: seq<Value>)
    ensures EncAll(a + b) == EncAll(a) + EncAll(b)
    decreases |a|
  {
    if a == [] {
      assert a + b == b;
    } else {
      assert (a + b)[1..] == a[1..] + b;
      EncAllSplit(a[1..], b);
    }
  }

  /** Appends the encoding of `v` to `buf`. */
  method Encode(v: Value, buf: seq<Byte>) returns (out: seq<Byte>)
    ensures out == buf + Enc(v)
    decreases v
  {
    match v {
      case U64(n) => out := buf + ToLe(n, 8);
      case Bool(b) => out := buf + [if b then 1 else 0];
      case Unit => out := buf + [0];
      case Bytes(bytes) => out := buf + ToLe(|bytes|, 8) + bytes;
      case Vec(items) => out := EncodeItems(v, items, buf + ToLe(|items|, 8));
      case Set(items) => out := EncodeItems(v, items, buf + ToLe(|items|, 8));
    }
  }

  method EncodeItems(ghost owner: Value, items: seq<Value>, buf: seq<Byte>) returns (out: seq<Byte>)
    requires (owner.Vec? || owner.Set?) && owner.items == items
    ensures out == buf + EncAll(items)
    decreases owner, 0
  {
    out := buf;
    for i := 0 to |items|
      invariant out == buf + EncAll(items[..i])
    {
      out := Encode(items[i], out);
      assert items[..i + 1] == items[..i] + [items[i]];
      EncAllSplit(items[..i], [items[i]]);
      assert EncAll([items[i]]) == Enc(items[i]);
    }
    assert items[..|items|] == items;
  }

  // ---- Decoding ------------------------------------------------------------------------------------

  /** A length prefix, narrowed to the machine's `usize`. */
  function DecLen(s: seq<Byte>, cap: nat, what: What): (r: Result<nat>)
    ensures r.Ok? ==> |s| >= 8 && r.value == FromLe(s[..8]) <= cap
  {
    if |s| < 8 then Err(UnexpectedEof)
    else if FromLe(s[..8]) > cap then Err(Invalid(what))
    else Ok(FromLe(s[..8]))
  }

  /** The fixed-width types and bytes. */
  function DecScalar(t: Ty, s: seq<Byte>, cap: nat): (r: Parse<Value>)
    requires !t.TVec? && !t.TSet?
    ensures r.Done? ==> 0 < r.used <= |s|
  {
    match t
    case TU64 => if |s| < 8 then Fail(UnexpectedEof) else Done(U64(FromLe(s[..8])), 8)
    case TBool =>
      if s == [] then Fail(UnexpectedEof)
      else if s[0] == 0 then Done(Bool(false), 1)
      else if s[0] == 1 then Done(Bool(true), 1)
      else Fail(Invalid(BoolByte))
    case TUnit =>
      if s == [] then Fail(UnexpectedEof) else if s[0] == 0 then Done(Unit, 1) else Fail(Invalid(UnitByte))
    case TBytes =>
      var n := DecLen(s, cap, BytesLength);
      if n.Err? then Fail(n.error)
      else if 8 + n.value > |s| then Fail(UnexpectedEof)
      else Done(Bytes(s[8..8 + n.value]), 8 + n.value)
  }

  function LengthOf(t: Ty): What { if t.TSet? then SetLength else VecLength }

  function Collect(t: Ty, items: seq<Value>): Value { if t.TSet? then Set(items) else Vec(items) }

  /** The value at the front of `s`. */
  function Dec(t: Ty, s: seq<Byte>, cap: nat): (r: Parse<Value>)
    ensures r.Done? ==> r.used <= |s|
    decreases t, 0
  {
    if !t.TVec? && !t.TSet? then DecScalar(t, s, cap)
    else
      var n := DecLen(s, cap, LengthOf(t));
      if n.Err? then Fail(n.error)
      else
        var r := DecItems(t.elem, n.value, s[8..], cap, t.TSet?, None);
        if r.Fail? then Fail(r.error) else Done(Collect(t, r.value), 8 + r.used)
  }

  function ZeroWidth(isSet: bool): DecodeError {
    Invalid(if isSet then ZeroWidthSetElement else ZeroWidthVecElement)
  }

  predicate OutOfOrder(isSet: bool, prev: Option<Value>, v: Value) {
    isSet && prev.Some? && (v == prev.value || Less(v, prev.value))
  }

  /** One turn of the element loop. */
  function DecOne(e: Ty, s: seq<Byte>, cap: nat, isSet: bool, prev: Option<Value>): (r: Parse<Value>)
    ensures r.Done? ==> r.used <= |s|
    decreases e, 1
  {
    var r := Dec(e, s, cap);
    if r.Fail? then r
    else if r.used == 0 then Fail(ZeroWidth(isSet))
    else if OutOfOrder(isSet, prev, r.value) then Fail(Invalid(NotAscending))
    else r
  }

  /** `n` elements off the front of `s`, the first of them following `prev`. */
  function DecItems(e: Ty, n: nat, s: seq<Byte>, cap: nat, isSet: bool, prev: Option<Value>): (r: Parse<seq<Value>>)
    ensures r.Done? ==> r.used <= |s|
    decreases e, 2 + n
  {
    if n == 0 then Done([], 0)
    else
      var one := DecOne(e, s, cap, isSet, prev);
      if one.Fail? then Fail(one.error)
      else Join([one.value], one.used, DecItems(e, n - 1, s[one.used..], cap, isSet, Some(one.value)))
  }

  /** Elements already taken, put in front of what the rest of the loop takes. */
  function Join(done: seq<Value>, used: nat, rest: Parse<seq<Value>>): Parse<seq<Value>> {
    if rest.Fail? then rest else Done(done + rest.value, used + rest.used)
  }

  function DecExact(t: Ty, s: seq<Byte>, cap: nat): Result<Value> {
    var r := Dec(t, s, cap);
    if r.Fail? then Err(r.error)
    else if r.used < |s| then Err(Invalid(TrailingBytes))
    else Ok(r.value)
  }

  ghost predicate Follows(prev: Option<Value>, items: seq<Value>) {
    prev.Some? && items != [] ==> Less(prev.value, items[0])
  }

  // ---- Round trips ---------------------------------------------------------------------------------

  /** Decoding bytes that begin with an encoding returns the value and stops at its end. */
  lemma {:induction false} RoundTrip(t: Ty, v: Value, s: seq<Byte>, cap: nat)
    requires cap <= U64_MAX && HasType(t, v, cap) && Enc(v) <= s
    ensures Dec(t, s, cap) == Done(v, |Enc(v)|)
    decreases t, 0, 0
  {
    if t.TVec? || t.TSet? {
      RoundTripBody(v, s, cap, LengthOf(t));
      RoundTripItems(t.elem, v.items, s[8..], cap, t.TSet?, None);
    } else {
      RoundTripScalar(t, v, s, cap);
    }
  }

  lemma RoundTripScalar(t: Ty, v: Value, s: seq<Byte>, cap: nat)
    requires !t.TVec? && !t.TSet? && cap <= U64_MAX && HasType(t, v, cap) && Enc(v) <= s
    ensures DecScalar(t, s, cap) == Done(v, |Enc(v)|)
  {
    match t {
      case TU64 =>
        Pow256Of8();
        LeRoundTrip(v.n, 8);
        assert s[..8] == ToLe(v.n, 8);
      case TBool | TUnit =>
      case TBytes =>
        LenRoundTrip(|v.bytes|, v.bytes, s, cap, BytesLength);
        assert s[8..8 + |v.bytes|] == v.bytes;
    }
  }

  lemma RoundTripBody(v: Value, s: seq<Byte>, cap: nat, what: What)
    requires (v.Vec? || v.Set?) && |v.items| <= cap <= U64_MAX && Enc(v) <= s
    ensures DecLen(s, cap, what) == Ok(|v.items|)
    ensures EncAll(v.items) <= s[8..] && |Enc(v)| == 8 + |EncAll(v.items)|
  {
    LenRoundTrip(|v.items|, EncAll(v.items), s, cap, what);
  }

  lemma LenRoundTrip(n: nat, body: seq<Byte>, s: seq<Byte>, cap: nat, what: What)
    requires n <= cap <= U64_MAX && ToLe(n, 8) + body <= s
    ensures DecLen(s, cap, what) == Ok(n)
    ensures body <= s[8..]
  {
    Pow256Of8();
    LeRoundTrip(n, 8);
    PrefixSplit(ToLe(n, 8), body, s);
  }

  lemma PrefixSplit(a: seq<Byte>, b: seq<Byte>, s: seq<Byte>)
    requires a + b <= s
    ensures |a| <= |s| && s[..|a|] == a && b <= s[|a|..]
  {
    assert a + b == s[..|a| + |b|];
    assert (a + b)[..|a|] == a;
    assert s[|a|..][..|b|] == (a + b)[|a|..];
  }

  lemma {:induction false} RoundTripItems(e: Ty, items: seq<Value>, s: seq<Byte>, cap: nat, isSet: bool, prev: Option<Value>)
    requires cap <= U64_MAX && EncAll(items) <= s
    requires forall i :: 0 <= i < |items| ==> HasType(e, items[i], cap)
    requires isSet ==> Ascending(items) && Follows(prev, items)
    requires prev.Some? ==> HasType(e, prev.value, cap)
    ensures DecItems(e, |items|, s, cap, isSet, prev) == Done(items, |EncAll(items)|)
    decreases e, 1, |items|
  {
    if items != [] {
      var v, rest := items[0], items[1..];
      var k := |Enc(v)|;
      EncAllHead(items, s);
      RoundTrip(e, v, s, cap);
      if isSet {
        AscendingTail(items);
        if prev.Some? { Trichotomy(e, prev.value, v, cap); }
      }
      RoundTripItems(e, rest, s[k..], cap, isSet, Some(v));
      DecItemsTurn(e, |items|, s, cap, isSet, prev, v, k, rest, |EncAll(rest)|);
      HeadTail(items);
    }
  }

  lemma DecItemsTurn(e: Ty, n: nat, s: seq<Byte>, cap: nat, isSet: bool, prev: Option<Value>, v: Value, k: nat, rest: seq<Value>, m: nat)
    requires n > 0 && Dec(e, s, cap) == Done(v, k) && k > 0 && !OutOfOrder(isSet, prev, v)
    requires DecItems(e, n - 1, s[k..], cap, isSet, Some(v)) == Done(rest, m)
    ensures DecItems(e, n, s, cap, isSet, prev) == Done([v] + rest, k + m)
  {
  }

  lemma EncNonEmpty(v: Value)
    ensures |Enc(v)| > 0
  {
  }

  lemma EncAllHead(items: seq<Value>, s: seq<Byte>)
    requires items != [] && EncAll(items) <= s
    ensures var k := |Enc(items[0])|;
            && k > 0 && Enc(items[0]) <= s && EncAll(items[1..]) <= s[k..]
            && |EncAll(items)| == k + |EncAll(items[1..])|
  {
    EncNonEmpty(items[0]);
    PrefixSplit(Enc(items[0]), EncAll(items[1..]), s);
  }

  lemma AscendingTail(items: seq<Value>)
    requires items != [] && Ascending(items)
    ensures Ascending(items[1..]) && Follows(Some(items[0]), items[1..])
  {
    var rest := items[1..];
    assert rest != [] ==> Less(items[0], items[0 + 1]);
    forall i | 0 <= i < |rest| - 1 ensures Less(rest[i], rest[i + 1]) {
      assert Less(items[i + 1], items[i + 1 + 1]);
    }
  }

  /** Whatever bytes decode are exactly the encoding of the value they decode to. */
  lemma {:induction false} Canonical(t: Ty, s: seq<Byte>, cap: nat)
    requires cap <= U64_MAX && Dec(t, s, cap).Done?
    ensures var r := Dec(t, s, cap);
            HasType(t, r.value, cap) && r.used > 0 && Enc(r.value) == s[..r.used]
    decreases t, 0, 0
  {
    if t.TVec? || t.TSet? {
      CanonicalItems(t.elem, FromLe(s[..8]), s[8..], cap, t.TSet?, None);
      var r := Dec(t, s, cap);
      CanonicalBody(r.value, s, r.used);
    } else {
      CanonicalScalar(t, s, cap);
    }
  }

  lemma CanonicalScalar(t: Ty, s: seq<Byte>, cap: nat)
    requires !t.TVec? && !t.TSet? && cap <= U64_MAX && DecScalar(t, s, cap).Done?
    ensures var r := DecScalar(t, s, cap);
            HasType(t, r.value, cap) && Enc(r.value) == s[..r.used]
  {
    if t.TU64? || t.TBytes? {
      LeCanonical(s[..8]);
      Pow256Of8();
    }
    if t.TBytes? {
      var k := DecScalar(t, s, cap).used;
      assert s[..k] == s[..8] + s[8..k];
    }
  }

  lemma CanonicalBody(v: Value, s: seq<Byte>, k: nat)
    requires (v.Vec? || v.Set?) && 8 <= k <= |s|
    requires |v.items| == FromLe(s[..8]) && EncAll(v.items) == s[8..][..k - 8]
    ensures Enc(v) == s[..k]
  {
    LeCanonical(s[..8]);
    SliceJoin(s, 8, k - 8);
  }

  lemma SliceJoin(s: seq<Byte>, k: nat, m: nat)
    requires k + m <= |s|
    ensures s[..k + m] == s[..k] + s[k..][..m]
  {
  }

  /** `items` is a well-typed element list that encodes to `enc` and may follow `prev`. */
  ghost predicate Accepted(e: Ty, items: seq<Value>, enc: seq<Byte>, cap: nat, isSet: bool, prev: Option<Value>) {
    && EncAll(items) == enc
    && (forall i :: 0 <= i < |items| ==> HasType(e, items[i], cap))
    && (isSet ==> Ascending(items) && Follows(prev, items))
  }

  lemma AcceptedCons(e: Ty, v: Value, rest: seq<Value>, enc: seq<Byte>, cap: nat, isSet: bool, prev: Option<Value>)
    requires HasType(e, v, cap) && Accepted(e, rest, enc, cap, isSet, Some(v))
    requires isSet && prev.Some? ==> Less(prev.value, v)
    ensures Accepted(e, [v] + rest, Enc(v) + enc, cap, isSet, prev)
  {
    var items := [v] + rest;
    assert items[1..] == rest;
    if isSet {
      forall i | 0 <= i < |items| - 1 ensures Less(items[i], items[i + 1]) {
        if i > 0 { assert Less(rest[i - 1], rest[i - 1 + 1]); }
      }
    }
  }

  lemma {:induction false} CanonicalItems(e: Ty, n: nat, s: seq<Byte>, cap: nat, isSet: bool, prev: Option<Value>)
    requires cap <= U64_MAX && DecItems(e, n, s, cap, isSet, prev).Done?
    requires prev.Some? ==> HasType(e, prev.value, cap)
    ensures var r := DecItems(e, n, s, cap, isSet, prev);
            |r.value| == n && Accepted(e, r.value, s[..r.used], cap, isSet, prev)
    decreases e, 1, n
  {
    if n > 0 {
      var one := Dec(e, s, cap);
      Canonical(e, s, cap);
      CanonicalItems(e, n - 1, s[one.used..], cap, isSet, Some(one.value));
      var rest := DecItems(e, n - 1, s[one.used..], cap, isSet, Some(one.value));
      if isSet && prev.Some? { Trichotomy(e, prev.value, one.value, cap); }
      AcceptedCons(e, one.value, rest.value, s[one.used..][..rest.used], cap, isSet, prev);
      SliceJoin(s, one.used, rest.used);
    }
  }

  /** A whole buffer decodes to `v` exactly when it is the encoding of the typed value `v`. */
  lemma DecodeExactIff(t: Ty, s: seq<Byte>, v: Value, cap: nat)
    requires cap <= U64_MAX
    ensures DecExact(t, s, cap) == Ok(v) <==> HasType(t, v, cap) && s == Enc(v)
  {
    if HasType(t, v, cap) && s == Enc(v) {
      RoundTrip(t, v, s, cap);
    }
    if DecExact(t, s, cap) == Ok(v) {
      Canonical(t, s, cap);
      assert s[..|s|] == s;
    }
  }

  /** No encoding of a type is a prefix of the encoding of another value of it. */
  lemma PrefixFree(t: Ty, v: Value, w: Value, cap: nat)
    requires cap <= U64_MAX && HasType(t, v, cap) && HasType(t, w, cap)
    requires Enc(v) <= Enc(w)
    ensures v == w
  {
    RoundTrip(t, v, Enc(w), cap);
    RoundTrip(t, w, Enc(w), cap);
  }

  /**
    The zero-width refusal never fires for any nesting of these types, whatever the
    bytes, so a collection that encodes is never turned away for its element type.
  */
  lemma {:induction false} NeverZeroWidth(t: Ty, s: seq<Byte>, cap: nat, isSet: bool)
    requires cap <= U64_MAX
    ensures Dec(t, s, cap) != Fail(ZeroWidth(isSet))
    decreases t, 0, 0
  {
    if t.TVec? || t.TSet? {
      var n := DecLen(s, cap, LengthOf(t));
      if n.Ok? {
        NeverZeroWidthItems(t.elem, n.value, s[8..], cap, t.TSet?, None, isSet);
      }
    }
  }

  lemma {:induction false} NeverZeroWidthItems(e: Ty, n: nat, s: seq<Byte>, cap: nat, asSet: bool, prev: Option<Value>, isSet: bool)
    requires cap <= U64_MAX
    ensures DecItems(e, n, s, cap, asSet, prev) != Fail(ZeroWidth(isSet))
    decreases e, 1, n
  {
    if n > 0 {
      NeverZeroWidth(e, s, cap, isSet);
      var one := Dec(e, s, cap);
      if one.Done? {
        Canonical(e, s, cap);
        NeverZeroWidthItems(e, n - 1, s[one.used..], cap, asSet, Some(one.value), isSet);
      }
    }
  }

  // ---- The cursor and the decoding loops -----------------------------------------------------------

  /** A read cursor over a shared buffer; every read moves `pos` past exactly what it took. */
  class ByteCursor {
    const buf: seq<Byte>
    var pos: nat

    ghost predicate Valid()
      reads this
    { pos <= |buf| }

    function Rest(): (r: seq<Byte>)
      requires Valid()
      reads this
    { buf[pos..] }

    constructor (buf: seq<Byte>)
      ensures Valid() && this.buf == buf && pos == 0
    {
      this.buf := buf;
      pos := 0;
    }

    function Remaining(): (r: nat)
      requires Valid()
      reads this
      ensures r == |Rest()|
    { |buf| - pos }

    method TakeBytes(len: nat) returns (r: Result<seq<Byte>>)
      requires Valid()
      modifies this
      ensures Valid()
      ensures len <= |old(Rest())| ==> r == Ok(old(Rest())[..len]) && pos == old(pos) + len
      ensures len > |old(Rest())| ==> r == Err(UnexpectedEof) && pos == old(pos)
    {
      if pos + len > |buf| {
        return Err(UnexpectedEof);
      }
      assert buf[pos..][..len] == buf[pos..pos + len];
      r := Ok(buf[pos..pos + len]);
      pos := pos + len;
    }
  }

  /** How a decode specified by `spec` moves the cursor from `from` to `to`. */
  ghost predicate Moved<T>(spec: Parse<T>, r: Result<T>, from: nat, to: nat) {
    match spec
    case Done(v, k) => r == Ok(v) && to == from + k
    case Fail(e) => r == Err(e)
  }

  method DecodeLen(cur: ByteCursor, cap: nat, what: What) returns (r: Result<nat>)
    requires cur.Valid()
    modifies cur
    ensures cur.Valid() && r == DecLen(old(cur.Rest()), cap, what)
    ensures r.Ok? ==> cur.pos == old(cur.pos) + 8
  {
    var raw := cur.TakeBytes(8);
    if raw.Err? {
      return Err(raw.error);
    }
    var n := FromLe(raw.value);
    r := if n > cap then Err(Invalid(what)) else Ok(n);
  }

  method DecodeScalar(cur: ByteCursor, t: Ty, cap: nat) returns (r: Result<Value>)
    requires cur.Valid() && !t.TVec? && !t.TSet?
    modifies cur
    ensures cur.Valid() && Moved(DecScalar(t, old(cur.Rest()), cap), r, old(cur.pos), cur.pos)
  {
    match t {
      case TU64 =>
        var raw := cur.TakeBytes(8);
        r := if raw.Err? then Err(raw.error) else Ok(U64(FromLe(raw.value)));
      case TBool =>
        var raw := cur.TakeBytes(1);
        r := if raw.Err? then Err(raw.error)
             else if raw.value[0] == 0 then Ok(Bool(false))
             else if raw.value[0] == 1 then Ok(Bool(true))
             else Err(Invalid(BoolByte));
      case TUnit =>
        var raw := cur.TakeBytes(1);
        r := if raw.Err? then Err(raw.error) else if raw.value[0] == 0 then Ok(Unit) else Err(Invalid(UnitByte));
      case TBytes =>
        ghost var s := cur.Rest();
        var len := DecodeLen(cur, cap, BytesLength);
        if len.Err? {
          return Err(len.error);
        }
        DropDrop(cur.buf, old(cur.pos), 8);
        var raw := cur.TakeBytes(len.value);
        if raw.Err? {
          return Err(raw.error);
        }
        assert s[8..][..len.value] == s[8..8 + len.value];
        r := Ok(Bytes(raw.value));
    }
  }

  lemma DropDrop(s: seq<Byte>, a: nat, b: nat)
    requires a + b <= |s|
    ensures s[a..][b..] == s[a + b..]
  {
  }

  /** The recursive decoder the source's trait implementations spell out type by type. */
  method Decode(cur: ByteCursor, t: Ty, cap: nat) returns (r: Result<Value>)
    requires cur.Valid()
    modifies cur
    ensures cur.Valid() && Moved(Dec(t, old(cur.Rest()), cap), r, old(cur.pos), cur.pos)
    decreases t, 0
  {
    if !t.TVec? && !t.TSet? {
      r := DecodeScalar(cur, t, cap);
      return;
    }
    var len := DecodeLen(cur, cap, LengthOf(t));
    if len.Err? {
      return Err(len.error);
    }
    DropDrop(cur.buf, old(cur.pos), 8);
    var items := DecodeItems(cur, t.elem, len.value, cap, t.TSet?);
    r := if items.Err? then Err(items.error) else Ok(Collect(t, items.value));
  }

  method DecodeOne(cur: ByteCursor, e: Ty, cap: nat, isSet: bool, prev: Option<Value>) returns (r: Result<Value>)
    requires cur.Valid()
    modifies cur
    ensures cur.Valid()
    ensures Moved(DecOne(e, old(cur.Rest()), cap, isSet, prev), r, old(cur.pos), cur.pos)
    decreases e, 1
  {
    var before := cur.Remaining();
    r := Decode(cur, e, cap);
    if r.Ok? {
      if cur.Remaining() == before {
        return Err(ZeroWidth(isSet));
      }
      if OutOfOrder(isSet, prev, r.value) {
        return Err(Invalid(NotAscending));
      }
    }
  }

  function Last(items: seq<Value>): Option<Value> {
    if items == [] then None else Some(items[|items| - 1])
  }

  method DecodeItems(cur: ByteCursor, e: Ty, n: nat, cap: nat, isSet: bool) returns (r: Result<seq<Value>>)
    requires cur.Valid()
    modifies cur
    ensures cur.Valid()
    ensures Moved(DecItems(e, n, old(cur.Rest()), cap, isSet, None), r, old(cur.pos), cur.pos)
    decreases e, 2
  {
    hide DecItems, DecOne, Join;
    var items: seq<Value> := [];
    ghost var start := cur.pos;
    ghost var spec := DecItems(e, n, cur.Rest(), cap, isSet, None);
    JoinNothing(spec);
    for i := 0 to n
      invariant cur.Valid() && |items| == i && start <= cur.pos
      invariant spec == Join(items, cur.pos - start, DecItems(e, n - i, cur.Rest(), cap, isSet, Last(items)))
    {
      ghost var from, rest := cur.pos, cur.Rest();
      var item := DecodeOne(cur, e, cap, isSet, Last(items));
      if item.Err? {
        JoinFail(e, n - i, rest, cap, isSet, items, from - start);
        return Err(item.error);
      }
      DropDrop(cur.buf, from, cur.pos - from);
      JoinTurn(e, n - i, rest, cap, isSet, items, from - start, item.value, cur.pos - from);
      items := items + [item.value];
    }
    JoinEnd(items, cur.pos - start, e, cur.Rest(), cap, isSet);
    r := Ok(items);
  }

  lemma JoinNothing(spec: Parse<seq<Value>>)
    ensures Join([], 0, spec) == spec
  {
    if spec.Done? { assert [] + spec.value == spec.value; }
  }

  lemma JoinEnd(items: seq<Value>, used: nat, e: Ty, s: seq<Byte>, cap: nat, isSet: bool)
    ensures Join(items, used, DecItems(e, 0, s, cap, isSet, Last(items))) == Done(items, used)
  {
    assert items + [] == items;
  }

  lemma JoinFail(e: Ty, n: nat, s: seq<Byte>, cap: nat, isSet: bool, done: seq<Value>, used: nat)
    requires n > 0 && DecOne(e, s, cap, isSet, Last(done)).Fail?
    ensures Join(done, used, DecItems(e, n, s, cap, isSet, Last(done))) == Fail(DecOne(e, s, cap, isSet, Last(done)).error)
  {
  }

  lemma JoinTurn(e: Ty, n: nat, s: seq<Byte>, cap: nat, isSet: bool, done: seq<Value>, used: nat, v: Value, k: nat)
    requires n > 0 && DecOne(e, s, cap, isSet, Last(done)) == Done(v, k)
    ensures Join(done, used, DecItems(e, n, s, cap, isSet, Last(done)))
         == Join(done + [v], used + k, DecItems(e, n - 1, s[k..], cap, isSet, Last(done + [v])))
  {
    var tail := DecItems(e, n - 1, s[k..], cap, isSet, Some(v));
    JoinAssoc(done, used, v, k, tail);
  }

  lemma JoinAssoc(done: seq<Value>, used: nat, v: Value, k: nat, tail: Parse<seq<Value>>)
    ensures Join(done, used, Join([v], k, tail)) == Join(done + [v], used + k, tail)
    ensures Last(done + [v]) == Some(v)
  {
    if tail.Done? { assert done + ([v] + tail.value) == done + [v] + tail.value; }
  }

  /** A self-contained payload: decode, then refuse trailing bytes. */
  method DecodeExact(t: Ty, s: seq<Byte>, cap: nat) returns (r: Result<Value>)
    ensures r == DecExact(t, s, cap)
  {
    var cur := new ByteCursor(s);
    assert cur.Rest() == s;
    r := Decode(cur, t, cap);
    if r.Ok? && cur.Remaining() != 0 {
      r := Err(Invalid(TrailingBytes));
    }
  }
}
