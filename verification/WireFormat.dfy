/**
  The bytes themselves: where each part of an encoding lies and what it holds, what the
  order of values is, and which error refuses which input.
*/
module WireFormat {
  import opened Wrappers
  import opened Codec

  // ---- Words ---------------------------------------------------------------------------------------

  lemma DivDiv(n: nat, a: nat, b: nat)
    requires a > 0 && b > 0
    ensures a * b > 0 && n / a / b == n / (a * b)
  {
    StepUp(a, 0, b);
    TwoSteps(n, a, b, n / a, n % a, n / a / b, n / a % b);
    QuotientIs(n, a * b, n / a / b, a * (n / a % b) + n % a);
  }

  lemma TwoSteps(n: nat, a: nat, b: nat, q: nat, r: nat, q': nat, r': nat)
    requires n == a * q + r && r < a && q == b * q' + r' && r' < b
    ensures n == (a * b) * q' + (a * r' + r) && a * r' + r < a * b
  {
    StepUp(a, r', b);
    assert a * q == a * (b * q') + a * r';
    assert a * (b * q') == (a * b) * q';
  }

  lemma QuotientIs(n: nat, d: nat, q: nat, r: nat)
    requires d > 0 && r < d && n == d * q + r
    ensures n / d == q
  {
    StepUp(d, n / d, q);
    StepUp(d, q, n / d);
  }

  lemma {:induction false} StepUp(d: nat, a: nat, b: nat)
    ensures a < b ==> d * a + d <= d * b
    decreases b
  {
    if a < b {
      assert d * b == d * (b - 1) + d;
      StepUp(d, a, b - 1);
    }
  }

  lemma {:induction false} ToLeAt(n: nat, k: nat, i: nat)
    requires i < k
    ensures ToLe(n, k)[i] == n / Pow256(i) % 256
    decreases k
  {
    if i > 0 {
      ToLeAt(n / 256, k - 1, i - 1);
      DivDiv(n, 256, Pow256(i - 1));
    }
  }

  /** Byte `i` of a word is its `i`-th digit in base 256, least significant first. */
  lemma WordBytes(n: nat, i: nat)
    requires n <= U64_MAX && i < 8
    ensures |Enc(U64(n))| == 8 && Enc(U64(n))[i] == n / Pow256(i) % 256
  {
    ToLeAt(n, 8, i);
  }

  /** True, false and unit are one byte each. */
  lemma FlagBytes()
    ensures Enc(Bool(true)) == [1] && Enc(Bool(false)) == [0] && Enc(Unit) == [0]
  {}

  // ---- Lengths and elements -----------------------------------------------------------------------------

  function LengthIn(v: Value): nat
    requires v.Bytes? || v.Vec? || v.Set?
  {
    if v.Bytes? then |v.bytes| else |v.items|
  }

  /** Bytes, vec and set begin with their length as a word. */
  lemma LengthPrefix(v: Value, i: nat)
    requires (v.Bytes? || v.Vec? || v.Set?) && LengthIn(v) <= U64_MAX && i < 8
    ensures |Enc(v)| >= 8 && Enc(v)[i] == LengthIn(v) / Pow256(i) % 256
    ensures v.Bytes? ==> Enc(v)[8..] == v.bytes
  {
    WordBytes(LengthIn(v), i);
  }

  /** The encoded lengths of these values together. */
  function Widths(items: seq<Value>): nat {
    if items == [] then 0 else Widths(items[..|items| - 1]) + |Enc(items[|items| - 1])|
  }

  lemma {:induction false} WidthsTotal(items: seq<Value>)
    ensures |EncAll(items)| == Widths(items)
    decreases |items|
  {
    if items != [] {
      var init, last := items[..|items| - 1], items[|items| - 1];
      assert items == init + [last];
      WidthsTotal(init);
      EncAllSplit(init, [last]);
      assert EncAll([last]) == Enc(last) + EncAll([]);
    }
  }

  lemma EncAllAt(items: seq<Value>, i: nat)
    requires i < |items|
    ensures EncAll(items) == EncAll(items[..i]) + (Enc(items[i]) + EncAll(items[i + 1..]))
  {
    assert items == items[..i] + items[i..];
    EncAllSplit(items[..i], items[i..]);
    assert items[i..][1..] == items[i + 1..];
  }

  /** Element `i` starts right after the length and the elements before it, and is its own encoding. */
  lemma ElementAt(v: Value, i: nat)
    requires (v.Vec? || v.Set?) && i < |v.items|
    ensures var at := 8 + Widths(v.items[..i]);
            at + |Enc(v.items[i])| <= |Enc(v)| && Enc(v)[at..at + |Enc(v.items[i])|] == Enc(v.items[i])
    ensures |Enc(v)| == 8 + Widths(v.items)
  {
    var items := v.items;
    WidthsTotal(items);
    WidthsTotal(items[..i]);
    EncAllAt(items, i);
    Middle(ToLe(|items|, 8), EncAll(items[..i]), Enc(items[i]), EncAll(items[i + 1..]), Enc(v));
  }

  lemma Middle(a: seq<Byte>, b: seq<Byte>, c: seq<Byte>, d: seq<Byte>, s: seq<Byte>)
    requires s == a + (b + (c + d))
    ensures s[|a| + |b|..|a| + |b| + |c|] == c
  {}

  // ---- Order -----------------------------------------------------------------------------------------------

  lemma SameHeads<T>(a: seq<T>, b: seq<T>, i: nat)
    requires i < |a| && i < |b| && a[0] == b[0]
    ensures a[..i + 1] == b[..i + 1] <==> a[1..][..i] == b[1..][..i]
  {
    assert a[..i + 1] == [a[0]] + a[1..][..i] && b[..i + 1] == [b[0]] + b[1..][..i];
    assert a[1..][..i] == a[..i + 1][1..] && b[1..][..i] == b[..i + 1][1..];
  }

  /** At `i` the two first differ, and `a` is the smaller there or has ended. */
  predicate FirstDiffers(a: seq<Byte>, b: seq<Byte>, i: nat) {
    i <= |a| && i < |b| && a[..i] == b[..i] && (i == |a| || a[i] < b[i])
  }

  lemma FirstDiffersShifts(a: seq<Byte>, b: seq<Byte>, i: nat)
    requires a != [] && b != [] && a[0] == b[0]
    ensures FirstDiffers(a, b, i + 1) <==> FirstDiffers(a[1..], b[1..], i)
    ensures !FirstDiffers(a, b, 0)
  {
    if i < |a| && i < |b| { SameHeads(a, b, i); }
  }

  /** Byte strings are ordered as a dictionary orders words. */
  lemma {:induction false} BytesOrder(a: seq<Byte>, b: seq<Byte>)
    ensures Less(Bytes(a), Bytes(b)) <==> exists i: nat :: FirstDiffers(a, b, i)
    decreases |a|
  {
    if b != [] && a != [] && a[0] == b[0] {
      BytesOrder(a[1..], b[1..]);
      forall i: nat
        ensures FirstDiffers(a, b, i + 1) <==> FirstDiffers(a[1..], b[1..], i)
        ensures !FirstDiffers(a, b, 0)
      {
        FirstDiffersShifts(a, b, i);
      }
      hide FirstDiffers;
      if i: nat :| FirstDiffers(a[1..], b[1..], i) { assert FirstDiffers(a, b, i + 1); }
      if i: nat :| FirstDiffers(a, b, i) { assert FirstDiffers(a[1..], b[1..], i - 1); }
    } else if b != [] && (a == [] || a[0] < b[0]) {
      assert FirstDiffers(a, b, 0);
    } else {
      forall i: nat ensures !FirstDiffers(a, b, i) {
        assert 0 < i <= |a| && i <= |b| ==> a[..i][0] == a[0] && b[..i][0] == b[0];
      }
    }
  }

  predicate ItemsDiffer(a: seq<Value>, b: seq<Value>, i: nat) {
    i <= |a| && i < |b| && a[..i] == b[..i] && (i == |a| || Less(a[i], b[i]))
  }

  lemma ItemsDifferShifts(a: seq<Value>, b: seq<Value>, i: nat)
    requires a != [] && b != [] && a[0] == b[0] && !Less(a[0], b[0])
    ensures ItemsDiffer(a, b, i + 1) <==> ItemsDiffer(a[1..], b[1..], i)
    ensures !ItemsDiffer(a, b, 0)
  {
    if i < |a| && i < |b| { SameHeads(a, b, i); }
  }

  /** Vecs and sets are ordered by their elements in the same way. */
  lemma {:induction false} CollectionsOrder(a: seq<Value>, b: seq<Value>)
    ensures Less(Vec(a), Vec(b)) <==> exists i: nat :: ItemsDiffer(a, b, i)
    ensures Less(Set(a), Set(b)) <==> Less(Vec(a), Vec(b))
    decreases |a|
  {
    if b != [] && (a == [] || Less(a[0], b[0])) {
      assert ItemsDiffer(a, b, 0);
    } else if b != [] && a[0] == b[0] {
      CollectionsOrder(a[1..], b[1..]);
      forall i: nat
        ensures ItemsDiffer(a, b, i + 1) <==> ItemsDiffer(a[1..], b[1..], i)
        ensures !ItemsDiffer(a, b, 0)
      {
        ItemsDifferShifts(a, b, i);
      }
      hide ItemsDiffer;
      if i: nat :| ItemsDiffer(a[1..], b[1..], i) { assert ItemsDiffer(a, b, i + 1); }
      if i: nat :| ItemsDiffer(a, b, i) { assert ItemsDiffer(a[1..], b[1..], i - 1); }
    } else {
      forall i: nat ensures !ItemsDiffer(a, b, i) {
        assert 0 < i <= |a| && i <= |b| ==> a[..i][0] == a[0] && b[..i][0] == b[0];
      }
    }
  }

  /** Words are ordered by value, and false comes before true. */
  lemma ScalarsOrder(m: nat, n: nat, p: bool, q: bool)
    ensures Less(U64(m), U64(n)) <==> m < n
    ensures Less(Bool(p), Bool(q)) <==> !p && q
    ensures !Less(Unit, Unit)
  {}

  // ---- Errors ------------------------------------------------------------------------------------------------

  /** A truncated encoding, at any nesting and cut anywhere, is an unexpected end and nothing else. */
  lemma {:induction false} TruncatedIsEof(t: Ty, v: Value, s: seq<Byte>, cap: nat)
    requires cap <= U64_MAX && HasType(t, v, cap) && s < Enc(v)
    ensures Dec(t, s, cap) == Fail(UnexpectedEof)
    decreases t, 0, 0
  {
    if (t.TBytes? || t.TVec? || t.TSet?) && |s| >= 8 {
      CutAfterLength(v, s, cap, if t.TBytes? then BytesLength else LengthOf(t));
      if !t.TBytes? { TruncatedItems(t.elem, v.items, s[8..], cap, t.TSet?, None); }
    }
  }

  lemma CutAfterLength(v: Value, s: seq<Byte>, cap: nat, what: What)
    requires (v.Bytes? || v.Vec? || v.Set?) && LengthIn(v) <= cap <= U64_MAX && s < Enc(v) && |s| >= 8
    ensures DecLen(s, cap, what) == Ok(LengthIn(v))
    ensures s[8..] < if v.Bytes? then v.bytes else EncAll(v.items)
  {
    Pow256Of8();
    LeRoundTrip(LengthIn(v), 8);
    assert s[..8] == Enc(v)[..8] == ToLe(LengthIn(v), 8);
    assert s[8..] == Enc(v)[8..|s|];
  }

  lemma ElementFails(e: Ty, n: nat, s: seq<Byte>, cap: nat, isSet: bool, prev: Option<Value>, err: DecodeError)
    requires n > 0 && Dec(e, s, cap) == Fail(err)
    ensures DecItems(e, n, s, cap, isSet, prev) == Fail(err)
  {}

  lemma RestFails(e: Ty, n: nat, s: seq<Byte>, cap: nat, isSet: bool, prev: Option<Value>, v: Value, k: nat, err: DecodeError)
    requires n > 0 && Dec(e, s, cap) == Done(v, k) && 0 < k <= |s| && !OutOfOrder(isSet, prev, v)
    requires DecItems(e, n - 1, s[k..], cap, isSet, Some(v)) == Fail(err)
    ensures DecItems(e, n, s, cap, isSet, prev) == Fail(err)
  {}

  /** A cut encoding of a list is cut inside its first element, or is that element and a cut rest. */
  lemma CutItems(items: seq<Value>, s: seq<Byte>)
    requires s < EncAll(items)
    ensures items != []
    ensures var k := |Enc(items[0])|;
            if |s| < k then s < Enc(items[0]) else k > 0 && Enc(items[0]) <= s && s[k..] < EncAll(items[1..])
  {
    var whole, head, rest := EncAll(items), Enc(items[0]), EncAll(items[1..]);
    EncNonEmpty(items[0]);
    assert whole == head + rest;
    hide Enc, EncAll;
    assert s == whole[..|s|];
    if |s| < |head| {
      assert s == head[..|s|];
    } else {
      assert s[..|head|] == head;
      assert s[|head|..] == rest[..|s| - |head|];
    }
  }

  lemma {:induction false} TruncatedItems(e: Ty, items: seq<Value>, s: seq<Byte>, cap: nat, isSet: bool, prev: Option<Value>)
    requires cap <= U64_MAX && s < EncAll(items)
    requires forall i :: 0 <= i < |items| ==> HasType(e, items[i], cap)
    requires isSet ==> Ascending(items) && Follows(prev, items)
    requires prev.Some? ==> HasType(e, prev.value, cap)
    ensures DecItems(e, |items|, s, cap, isSet, prev) == Fail(UnexpectedEof)
    decreases e, 1, |items|
  {
    CutItems(items, s);
    var v, k := items[0], |Enc(items[0])|;
    if |s| < k {
      TruncatedIsEof(e, v, s, cap);
      ElementFails(e, |items|, s, cap, isSet, prev, UnexpectedEof);
    } else {
      RoundTrip(e, v, s, cap);
      if isSet {
        AscendingTail(items);
        if prev.Some? { Trichotomy(e, prev.value, v, cap); }
      }
      TruncatedItems(e, items[1..], s[k..], cap, isSet, Some(v));
      RestFails(e, |items|, s, cap, isSet, prev, v, k, UnexpectedEof);
    }
  }

  /** Each scalar's errors, and exactly which bytes earn them. */
  lemma ScalarErrorsIff(s: seq<Byte>, cap: nat)
    ensures Dec(TU64, s, cap) == Fail(UnexpectedEof) <==> |s| < 8
    ensures Dec(TU64, s, cap).Fail? ==> |s| < 8
    ensures Dec(TBool, s, cap) == Fail(UnexpectedEof) <==> s == []
    ensures Dec(TBool, s, cap) == Fail(Invalid(BoolByte)) <==> s != [] && s[0] > 1
    ensures Dec(TUnit, s, cap) == Fail(UnexpectedEof) <==> s == []
    ensures Dec(TUnit, s, cap) == Fail(Invalid(UnitByte)) <==> s != [] && s[0] > 0
  {}

  /** A length word above the machine's is refused by name, whatever follows it. */
  lemma OversizeLength(n: nat, rest: seq<Byte>, cap: nat, e: Ty)
    requires cap < n <= U64_MAX
    ensures Dec(TBytes, Enc(U64(n)) + rest, cap) == Fail(Invalid(BytesLength))
    ensures Dec(TVec(e), Enc(U64(n)) + rest, cap) == Fail(Invalid(VecLength))
    ensures Dec(TSet(e), Enc(U64(n)) + rest, cap) == Fail(Invalid(SetLength))
  {
    Pow256Of8();
    LeRoundTrip(n, 8);
    assert (Enc(U64(n)) + rest)[..8] == ToLe(n, 8);
  }

  /** Listed elements that do not strictly ascend are refused as a set, and for that reason. */
  lemma UnsortedIsNotASet(e: Ty, items: seq<Value>, s: seq<Byte>, cap: nat)
    requires |items| <= cap <= U64_MAX && Enc(Vec(items)) <= s && !Ascending(items)
    requires forall i :: 0 <= i < |items| ==> HasType(e, items[i], cap)
    ensures Dec(TSet(e), s, cap) == Fail(Invalid(NotAscending))
    ensures Dec(TVec(e), s, cap) == Done(Vec(items), |Enc(Vec(items))|)
  {
    RoundTripBody(Vec(items), s, cap, SetLength);
    UnsortedItems(e, items, s[8..], cap, None);
    RoundTrip(TVec(e), Vec(items), s, cap);
  }

  lemma {:induction false} UnsortedItems(e: Ty, items: seq<Value>, s: seq<Byte>, cap: nat, prev: Option<Value>)
    requires cap <= U64_MAX && EncAll(items) <= s && items != []
    requires forall i :: 0 <= i < |items| ==> HasType(e, items[i], cap)
    requires prev.Some? ==> HasType(e, prev.value, cap)
    requires !Ascending(items) || !Follows(prev, items)
    ensures DecItems(e, |items|, s, cap, true, prev) == Fail(Invalid(NotAscending))
    decreases |items|
  {
    var v, k := items[0], |Enc(items[0])|;
    EncAllHead(items, s);
    RoundTrip(e, v, s, cap);
    if prev.Some? { Trichotomy(e, prev.value, v, cap); }
    if Follows(prev, items) {
      RestUnsorted(items);
      UnsortedItems(e, items[1..], s[k..], cap, Some(v));
      RestFails(e, |items|, s, cap, true, prev, v, k, Invalid(NotAscending));
    } else {
      OutOfOrderFails(e, |items|, s, cap, prev, v, k);
    }
  }

  lemma OutOfOrderFails(e: Ty, n: nat, s: seq<Byte>, cap: nat, prev: Option<Value>, v: Value, k: nat)
    requires n > 0 && Dec(e, s, cap) == Done(v, k) && k > 0 && OutOfOrder(true, prev, v)
    ensures DecItems(e, n, s, cap, true, prev) == Fail(Invalid(NotAscending))
  {}

  lemma RestUnsorted(items: seq<Value>)
    requires items != [] && !Ascending(items)
    ensures items[1..] != [] && (!Ascending(items[1..]) || !Follows(Some(items[0]), items[1..]))
  {
    var rest := items[1..];
    var i :| 0 <= i < |items| - 1 && !Less(items[i], items[i + 1]);
    if i > 0 { assert !Less(rest[i - 1], rest[i - 1 + 1]); }
  }
}
