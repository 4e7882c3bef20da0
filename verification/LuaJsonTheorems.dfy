/** When JSON survives the trip through Lua tables and back. */
module LuaJsonTheorems {
  import opened LuaJson

  // ---------------------------------------------------------------------------
  // Numbers.

  /** A whole number of at most 53 significant bits. */
  predicate Exact(i: int) { Abs(i) % Spacing(Abs(i)) == 0 }

  /** The numbers a table keeps: whole i64 numbers that are doubles, and floats that do not read back whole. */
  predicate KeptNumber(n: Num) {
    match n
    case Whole(i) => IsI64(i) && Exact(i)
    case Float(r) => !ReadsWhole(r)
  }

  lemma WholeReadsBack(i: int)
    ensures Truncate(i as real) == i && (ReadsWhole(i as real) <==> IsI64(i))
  {
    assert (i as real).Floor == i && (-(i as real)).Floor == -i;
  }

  lemma NumberKept(n: Num)
    ensures Stored(NumToLua(n)) == (match n case Whole(i) => Integer(i) case Float(r) => LuaFloat(r)) <==> KeptNumber(n)
  {
    match n {
      case Whole(i) =>
        WholeReadsBack(ToDouble(i));
      case Float(_) =>
    }
  }

  // ---------------------------------------------------------------------------
  // What is kept.

  /** What survives inside an array or object: no null, no empty array, only numbers a table keeps. */
  predicate Keeps(j: Json)
    decreases j
  {
    match j
    case Null => false
    case Bool(_) => true
    case Str(_) => true
    case Number(n) => KeptNumber(n)
    case Array(items) => items != [] && forall i :: 0 <= i < |items| ==> Keeps(items[i])
    case Object(fields) => forall k :: k in fields ==> Keeps(fields[k])
  }

  /** At the top, null survives too, and a number is never stored in a table. */
  predicate KeepsTop(j: Json) {
    match j
    case Null => true
    case Number(n) => n.Float? || IsI64(n.i)
    case _ => Keeps(j)
  }

  function Back(vm: Vm, j: Json): Result { LuaToJson(vm, Stored(JsonToLua(vm, j))) }

  // ---------------------------------------------------------------------------
  // Arrays.

  lemma {:induction false} ItemEntriesAt(vm: Vm, j: Json, n: nat, i: int)
    requires j.Array? && n <= |j.items|
    ensures IntKey(i) in ItemEntries(vm, j, n) <==> 1 <= i <= n && !j.items[i - 1].Null?
    ensures IntKey(i) in ItemEntries(vm, j, n) ==>
              ItemEntries(vm, j, n)[IntKey(i)] == Stored(JsonToLua(vm, j.items[i - 1]))
    decreases n
  {
    if n > 0 { ItemEntriesAt(vm, j, n - 1, i); }
  }

  lemma {:induction false} ItemsOfAll(vm: Vm, v: Lua, n: nat)
    requires v.Table? && forall i :: 1 <= i <= n ==> IntKey(i) in v.entries
    ensures var r := ItemsOf(vm, v, n);
            && (r.Items? <==> forall i :: 1 <= i <= n ==> LuaToJson(vm, v.entries[IntKey(i)]).Ok?)
            && (r.Items? ==> |r.values| == n)
            && (r.Items? ==> forall i :: 0 <= i < n ==> Ok(r.values[i]) == LuaToJson(vm, v.entries[IntKey(i + 1)]))
    decreases n
  {
    if n > 0 { ItemsOfAll(vm, v, n - 1); }
  }

  /** The table of an array without nulls has one border, its length. */
  lemma FullBorder(vm: Vm, j: Json)
    requires Valid(vm) && j.Array? && forall i :: 0 <= i < |j.items| ==> !j.items[i].Null?
    ensures vm.rawLen(ItemEntries(vm, j, |j.items|)) == |j.items|
  {
    var t := ItemEntries(vm, j, |j.items|);
    var n := vm.rawLen(t);
    assert Border(t, n);
    ItemEntriesAt(vm, j, |j.items|, n);
    ItemEntriesAt(vm, j, |j.items|, n + 1);
  }

  lemma ArrayKept(vm: Vm, j: Json)
    requires Valid(vm) && j.Array? && j.items != [] && forall i :: 0 <= i < |j.items| ==> !j.items[i].Null?
    ensures Back(vm, j) == Ok(j) <==> forall i :: 0 <= i < |j.items| ==> Back(vm, j.items[i]) == Ok(j.items[i])
  {
    var n := |j.items|;
    var t := ItemEntries(vm, j, n);
    FullBorder(vm, j);
    forall i | 1 <= i <= n ensures IntKey(i) in t && t[IntKey(i)] == Stored(JsonToLua(vm, j.items[i - 1])) {
      ItemEntriesAt(vm, j, n, i);
    }
    ItemsOfAll(vm, Table(t), n);
    var r := ItemsOf(vm, Table(t), n);
    assert Back(vm, j) == if r.Items? then Ok(Array(r.values)) else Err;
    if forall i :: 0 <= i < n ==> Back(vm, j.items[i]) == Ok(j.items[i]) {
      forall i | 1 <= i <= n ensures LuaToJson(vm, t[IntKey(i)]) == Ok(j.items[i - 1]) {
        assert Back(vm, j.items[i - 1]) == Ok(j.items[i - 1]);
      }
      assert r.values == j.items;
    }
    if Back(vm, j) == Ok(j) {
      forall i | 0 <= i < n ensures Back(vm, j.items[i]) == Ok(j.items[i]) {
        assert Ok(r.values[i]) == LuaToJson(vm, t[IntKey(i + 1)]);
      }
    }
  }

  lemma ArrayLost(vm: Vm, j: Json)
    requires j.Array? && (j.items == [] || exists i :: 0 <= i < |j.items| && j.items[i].Null?)
    ensures Back(vm, j) != Ok(j)
  {
    var t := ItemEntries(vm, j, |j.items|);
    if IsArray(vm, t) {
      ItemsOfAll(vm, Table(t), vm.rawLen(t));
      if vm.rawLen(t) == |j.items| {
        var i :| 0 <= i < |j.items| && j.items[i].Null?;
        ItemEntriesAt(vm, j, |j.items|, i + 1);
      }
    }
  }

  // ---------------------------------------------------------------------------
  // Objects.

  lemma FieldTableAt(vm: Vm, j: Json, key: Key)
    requires j.Object?
    ensures key in FieldTable(vm, j) <==> key.StrKey? && key.s in Present(j.fields)
    ensures key in FieldTable(vm, j) ==> FieldTable(vm, j)[key] == Stored(JsonToLua(vm, j.fields[key.s]))
  {
  }

  lemma FieldName(vm: Vm, j: Json, name: string)
    requires j.Object?
    ensures name in Names(vm, FieldTable(vm, j)) <==> name in Present(j.fields)
  {
    var t := FieldTable(vm, j);
    FieldTableAt(vm, j, StrKey(name));
    if name in Names(vm, t) {
      var k :| k in t && Textual(k) && KeyText(vm, k) == name;
      FieldTableAt(vm, j, k);
    }
    if StrKey(name) in t { assert Textual(StrKey(name)) && KeyText(vm, StrKey(name)) == name; }
  }

  lemma FieldKey(vm: Vm, j: Json, name: string)
    requires Valid(vm) && j.Object? && name in Present(j.fields)
    ensures vm.lastKey(FieldTable(vm, j), name) == StrKey(name)
  {
    FieldName(vm, j, name);
    FieldTableAt(vm, j, vm.lastKey(FieldTable(vm, j), name));
  }

  lemma FieldNames(vm: Vm, j: Json)
    requires Valid(vm) && j.Object?
    ensures Names(vm, FieldTable(vm, j)) == Present(j.fields)
    ensures forall name :: name in Present(j.fields) ==> vm.lastKey(FieldTable(vm, j), name) == StrKey(name)
    ensures vm.rawLen(FieldTable(vm, j)) == 0
  {
    var t := FieldTable(vm, j);
    forall name ensures name in Names(vm, t) <==> name in Present(j.fields) { FieldName(vm, j, name); }
    forall name | name in Present(j.fields) ensures vm.lastKey(t, name) == StrKey(name) { FieldKey(vm, j, name); }
    assert Border(t, vm.rawLen(t));
    FieldTableAt(vm, j, IntKey(vm.rawLen(t)));
  }

  lemma ObjectKept(vm: Vm, j: Json)
    requires Valid(vm) && j.Object?
    ensures Back(vm, j) == Ok(j)
       <==> forall k :: k in j.fields ==> !j.fields[k].Null? && Back(vm, j.fields[k]) == Ok(j.fields[k])
  {
    var t := FieldTable(vm, j);
    FieldNames(vm, j);
    assert JsonToLua(vm, j) == Table(t) && !IsArray(vm, t);
    if forall k :: k in j.fields ==> !j.fields[k].Null? && Back(vm, j.fields[k]) == Ok(j.fields[k]) {
      ObjectBack(vm, j, t);
    }
    if Back(vm, j) == Ok(j) { FieldsBack(vm, j, t); }
  }

  lemma FieldsBack(vm: Vm, j: Json, t: Entries)
    requires Valid(vm) && j.Object? && t == FieldTable(vm, j) && !IsArray(vm, t) && LuaToJson(vm, Table(t)) == Ok(j)
    ensures forall k :: k in j.fields ==> !j.fields[k].Null? && Back(vm, j.fields[k]) == Ok(j.fields[k])
  {
    FieldNames(vm, j);
    var fields := map name | name in Names(vm, t) :: FieldOf(vm, Table(t), name);
    assert Ok(Object(fields)) == Ok(j);
    forall k | k in j.fields ensures !j.fields[k].Null? && Back(vm, j.fields[k]) == Ok(j.fields[k]) {
      assert k in fields && fields[k] == FieldOf(vm, Table(t), k);
      assert Textual(StrKey(k)) && StrKey(k) in t;
      FieldTableAt(vm, j, StrKey(k));
    }
  }

  lemma ObjectBack(vm: Vm, j: Json, t: Entries)
    requires Valid(vm) && j.Object? && t == FieldTable(vm, j)
    requires forall k :: k in j.fields ==> !j.fields[k].Null? && Back(vm, j.fields[k]) == Ok(j.fields[k])
    ensures LuaToJson(vm, Table(t)) == Ok(j)
  {
    FieldNames(vm, j);
    forall k | k in t ensures LuaToJson(vm, t[k]).Ok? { FieldTableAt(vm, j, k); }
    var fields := map name | name in Names(vm, t) :: FieldOf(vm, Table(t), name);
    assert Present(j.fields) == j.fields.Keys;
    forall name | name in j.fields ensures name in fields && fields[name] == j.fields[name] {
      FieldTableAt(vm, j, StrKey(name));
    }
    assert fields == j.fields;
  }

  // ---------------------------------------------------------------------------
  // The round trip.

  lemma {:induction false} InnerRoundTrip(vm: Vm, j: Json)
    requires Valid(vm) && !j.Null?
    ensures Back(vm, j) == Ok(j) <==> Keeps(j)
    decreases j
  {
    match j {
      case Array(items) =>
        if items != [] && forall i :: 0 <= i < |items| ==> !items[i].Null? {
          ArrayKept(vm, j);
          forall i | 0 <= i < |items| ensures Back(vm, items[i]) == Ok(items[i]) <==> Keeps(items[i]) {
            InnerRoundTrip(vm, items[i]);
          }
        } else {
          ArrayLost(vm, j);
        }
      case Object(fields) =>
        ObjectKept(vm, j);
        forall k | k in fields && !fields[k].Null? ensures Back(vm, fields[k]) == Ok(fields[k]) <==> Keeps(fields[k]) {
          InnerRoundTrip(vm, fields[k]);
        }
      case Number(n) => NumberKept(n);
      case _ =>
    }
  }

  /** Exactly the documents without null inside an array or object, without empty arrays, and with numbers
      a table keeps, come back as they were. */
  lemma RoundTrip(vm: Vm, j: Json)
    requires Valid(vm)
    ensures LuaToJson(vm, JsonToLua(vm, j)) == Ok(j) <==> KeepsTop(j)
  {
    if !j.Null? { InnerRoundTrip(vm, j); }
  }

  // ---------------------------------------------------------------------------
  // Which numbers these are.

  function Pow2(k: nat): (p: nat)
    ensures p >= 1
  {
    if k == 0 then 1 else 2 * Pow2(k - 1)
  }

  /** The finite doubles: whole ones, and m / 2^k with a significand of 53 bits. */
  ghost predicate Double(r: real) {
    (r == r.Floor as real && Exact(r.Floor)) || exists m: int, k: nat :: Ratio(r, m, k)
  }

  predicate Ratio(r: real, m: int, k: nat) { Abs(m) < EXACT && r * Pow2(k) as real == m as real }

  /** Up to 2^53 every whole number is kept. */
  lemma SmallWholesKept(i: int)
    requires Abs(i) <= EXACT
    ensures KeptNumber(Whole(i))
  {
    if Abs(i) == EXACT { assert Spacing(EXACT) == 2 * Spacing(EXACT / 2); }
  }

  lemma {:induction false} Pow2Sum(a: nat, b: nat)
    ensures Pow2(a + b) == Pow2(a) * Pow2(b)
    decreases a
  {
    if a > 0 { Pow2Sum(a - 1, b); }
  }

  lemma Pow2Of52()
    ensures Pow2(52) == 0x10_0000_0000_0000
  {
    assert Pow2(4) == 16;
    Pow2Sum(4, 9);
    Pow2Sum(13, 13);
    Pow2Sum(26, 26);
    assert Pow2(9) == 2 * Pow2(8) && Pow2(8) == 256 by { Pow2Sum(4, 4); }
  }

  lemma Pow2Grows(a: nat, b: nat)
    requires a <= b
    ensures Pow2(a) <= Pow2(b)
  {
    Pow2Sum(a, b - a);
    assert Pow2(a) * 1 <= Pow2(a) * Pow2(b - a);
  }

  /** A power of two below 2^53 is at most 2^52. */
  lemma Pow2AtMost(k: nat)
    requires Pow2(k) < EXACT
    ensures Pow2(k) <= 0x10_0000_0000_0000
  {
    Pow2Of52();
    Pow2Sum(1, 52);
    if k <= 52 { Pow2Grows(k, 52); } else { Pow2Grows(53, k); }
  }

  /** Between a double of size at least 1 and its whole part lie no distances below 2^-52. */
  lemma FractionApart(r: real, t: int, m: int, p: nat)
    requires 1 <= p <= 0x10_0000_0000_0000 && r * p as real == m as real && r != t as real
    ensures r - t as real >= EPSILON || t as real - r >= EPSILON
  {
    var d := r - t as real;
    assert d * p as real == (m - t * p) as real;
    NonZeroProduct(d, p);
    if -EPSILON < d < EPSILON { SmallProduct(d, p); }
  }

  lemma NonZeroProduct(d: real, p: nat)
    requires p >= 1 && d != 0.0
    ensures d * p as real != 0.0
  {
  }

  lemma SmallProduct(d: real, p: nat)
    requires 1 <= p <= 0x10_0000_0000_0000 && -EPSILON < d < EPSILON
    ensures -1.0 < d * p as real < 1.0
  {
    assert d * p as real < EPSILON * p as real <= 1.0;
    assert d * p as real > -EPSILON * p as real >= -1.0;
  }

  lemma FractionKept(r: real, m: int, k: nat)
    requires Ratio(r, m, k) && r != r.Floor as real
    ensures -EPSILON < r - Truncate(r) as real < EPSILON <==> -EPSILON < r < EPSILON
  {
    var p := Pow2(k);
    if -1.0 < r < 1.0 {
      assert Truncate(r) == 0;
    } else {
      LargeDenominator(r, m, p);
      Pow2AtMost(k);
      FractionApart(r, Truncate(r), m, p);
    }
  }

  lemma LargeDenominator(r: real, m: int, p: nat)
    requires r * p as real == m as real && !(-1.0 < r < 1.0)
    ensures p <= Abs(m)
  {
    if r >= 1.0 {
      assert r * p as real >= 1.0 * p as real;
    } else {
      assert r * p as real <= -1.0 * p as real;
    }
  }

  /** A double is kept exactly when it is out of i64 range, or has a fraction and is not below 2^-52. */
  lemma DoublesKept(r: real)
    requires Double(r)
    ensures KeptNumber(Float(r)) <==>
              || r < I64_MIN as real || r >= (I64_MAX + 1) as real
              || (r != r.Floor as real && (r <= -EPSILON || r >= EPSILON))
  {
    if r == r.Floor as real {
      WholeReadsBack(r.Floor);
    } else {
      var m, k :| Ratio(r, m, k);
      FractionKept(r, m, k);
    }
  }

  // ---------------------------------------------------------------------------
  // Plain documents, and documents that change.

  /** No null inside, no empty array, whole numbers up to 2^53, and doubles with a fraction from 2^-52 up. */
  ghost predicate Plain(j: Json)
    decreases j
  {
    match j
    case Null => false
    case Bool(_) => true
    case Str(_) => true
    case Number(Whole(i)) => Abs(i) <= EXACT
    case Number(Float(r)) => Double(r) && r != r.Floor as real && (r <= -EPSILON || r >= EPSILON)
    case Array(items) => items != [] && forall i :: 0 <= i < |items| ==> Plain(items[i])
    case Object(fields) => forall k :: k in fields ==> Plain(fields[k])
  }

  lemma {:induction false} PlainKeeps(j: Json)
    requires Plain(j)
    ensures Keeps(j)
    decreases j
  {
    match j {
      case Array(items) =>
        forall i | 0 <= i < |items| ensures Keeps(items[i]) { PlainKeeps(items[i]); }
      case Object(fields) =>
        forall k | k in fields ensures Keeps(fields[k]) { PlainKeeps(fields[k]); }
      case Number(Whole(i)) => SmallWholesKept(i);
      case Number(Float(r)) => DoublesKept(r);
      case _ =>
    }
  }

  lemma PlainRoundTrip(vm: Vm, j: Json)
    requires Valid(vm) && Plain(j)
    ensures LuaToJson(vm, JsonToLua(vm, j)) == Ok(j)
  {
    PlainKeeps(j);
    RoundTrip(vm, j);
  }

  /** What one number in an array comes back as. */
  lemma NumberInArray(vm: Vm, n: Num)
    requires Valid(vm)
    ensures LuaToJson(vm, JsonToLua(vm, Array([Number(n)]))) == Ok(Array([LuaToJson(vm, Stored(NumToLua(n))).value]))
  {
    var j := Array([Number(n)]);
    var t := ItemEntries(vm, j, 1);
    FullBorder(vm, j);
    ItemEntriesAt(vm, j, 1, 1);
    ItemsOfAll(vm, Table(t), 1);
    var r := ItemsOf(vm, Table(t), 1);
    assert JsonToLua(vm, j) == Table(t);
    assert r.Items? && r.values == [r.values[0]];
  }

  const TINY: real := 1.0 / 0x40_0000_0000_0000 as real // 2^-54

  /** A tiny fraction comes back as the whole number zero... */
  lemma TinyFractionLost(vm: Vm)
    requires Valid(vm)
    ensures LuaToJson(vm, JsonToLua(vm, Array([Number(Float(TINY))]))) == Ok(Array([Number(Whole(0))]))
  {
    NumberInArray(vm, Float(TINY));
    assert Truncate(TINY) == 0;
  }

  /** ... a whole float as an integer... */
  lemma WholeFloatChanges(vm: Vm)
    requires Valid(vm)
    ensures LuaToJson(vm, JsonToLua(vm, Array([Number(Float(1.0))]))) == Ok(Array([Number(Whole(1))]))
  {
    NumberInArray(vm, Float(1.0));
    assert Truncate(1.0) == 1;
  }

  /** ... and 2^53 + 1 as 2^53. */
  lemma LongWholeRounded(vm: Vm)
    requires Valid(vm)
    ensures LuaToJson(vm, JsonToLua(vm, Array([Number(Whole(EXACT + 1))]))) == Ok(Array([Number(Whole(EXACT))]))
  {
    NumberInArray(vm, Whole(EXACT + 1));
    WholeReadsBack(EXACT);
    RoundsDown();
  }

  lemma RoundsDown()
    ensures RoundNat(EXACT + 1) == EXACT
  {
    assert Spacing(EXACT + 1) == 2 * Spacing((EXACT + 1) / 2);
  }
}
