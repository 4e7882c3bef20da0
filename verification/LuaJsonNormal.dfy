/** What comes back from any document: one trip through Lua normalises it, a second changes nothing. */
module LuaJsonNormal {
  import opened LuaJson
  import opened LuaJsonTheorems

  // ---------------------------------------------------------------------------
  // Rounding needs no second rounding.

  /** A whole number lies within the band of doubles its spacing belongs to. */
  lemma {:induction false} InBand(n: nat)
    ensures n < EXACT * Spacing(n) && (Spacing(n) > 1 ==> n >= EXACT / 2 * Spacing(n))
    decreases n
  {
    if n >= EXACT { InBand(n / 2); }
  }

  /** All numbers of the band of `n` have its spacing... */
  lemma {:induction false} SameBand(m: nat, n: nat)
    requires m < EXACT * Spacing(n) && (Spacing(n) > 1 ==> m >= EXACT / 2 * Spacing(n))
    ensures Spacing(m) == Spacing(n)
    decreases n
  {
    if n >= EXACT { SameBand(m / 2, n / 2); }
  }

  /** ... and the number just above it begins the next band. */
  lemma {:induction false} NextBand(n: nat)
    ensures Spacing(EXACT * Spacing(n)) == 2 * Spacing(n)
    decreases n
  {
    if n >= EXACT {
      NextBand(n / 2);
      assert EXACT * Spacing(n) / 2 == EXACT * Spacing(n / 2);
    } else {
      assert Spacing(EXACT) == 2 * Spacing(EXACT / 2);
    }
  }

  lemma TimesGrows(a: int, b: int, u: nat)
    requires a <= b
    ensures a * u <= b * u
  {
  }

  lemma Multiples(n: nat, u: nat)
    requires 1 <= u && n < EXACT * u
    ensures n - n % u + u <= EXACT * u
    ensures EXACT / 2 * u <= n ==> EXACT / 2 * u <= n - n % u
    ensures (n - n % u) % u == 0 && (n - n % u + u) % u == 0
  {
    var q := n / u;
    assert n == q * u + n % u && (q + 1) * u == q * u + u;
    if q >= EXACT { TimesGrows(EXACT, q, u); }
    TimesGrows(q + 1, EXACT, u);
    if q < EXACT / 2 { TimesGrows(q + 1, EXACT / 2, u); } else { TimesGrows(EXACT / 2, q, u); }
    MultipleOf(q * u, u, q);
    MultipleOf((q + 1) * u, u, q + 1);
  }

  lemma MultipleOf(n: nat, u: nat, q: nat)
    requires u >= 1 && n == q * u
    ensures n % u == 0
  {
    var d, r := n / u, n % u;
    assert n == d * u + r && (q - d) * u == q * u - d * u;
    if q - d >= 1 { TimesGrows(1, q - d, u); }
    if q - d <= -1 { TimesGrows(q - d, -1, u); }
  }

  lemma NearestInBand(n: nat, u: nat)
    requires 1 <= u && n < EXACT * u && (u > 1 ==> n >= EXACT / 2 * u)
    ensures var m := Nearest(n, u); m <= EXACT * u && m % u == 0 && (u > 1 ==> m >= EXACT / 2 * u)
  {
    Multiples(n, u);
  }

  lemma TopExact(n: nat)
    ensures (EXACT * Spacing(n)) % Spacing(EXACT * Spacing(n)) == 0
  {
    NextBand(n);
    MultipleOf(EXACT * Spacing(n), 2 * Spacing(n), EXACT / 2);
  }

  /** What rounding gives needs no more rounding. */
  lemma RoundedExact(n: nat)
    ensures RoundNat(n) % Spacing(RoundNat(n)) == 0
  {
    InBand(n);
    NearestInBand(n, Spacing(n));
    if RoundNat(n) < EXACT * Spacing(n) { SameBand(RoundNat(n), n); } else { TopExact(n); }
  }

  lemma DoubleIsExact(i: int)
    ensures Exact(ToDouble(i))
  {
    RoundedExact(Abs(i));
    assert Abs(ToDouble(i)) == RoundNat(Abs(i));
  }

  lemma WholeDoubleExact(r: real)
    requires Double(r) && r == r.Floor as real
    ensures Exact(r.Floor)
  {
    if m: int, k: nat :| Ratio(r, m, k) {
      WholeRatioSmall(r, m, Pow2(k));
      assert Abs(r.Floor) < EXACT;
    }
  }

  lemma WholeRatioSmall(r: real, m: int, p: nat)
    requires p >= 1 && r * p as real == m as real
    ensures r <= Abs(m) as real && -r <= Abs(m) as real
  {
    if r > 0.0 { assert r * p as real >= r * 1.0; }
    if r < 0.0 { assert r * p as real <= r * 1.0; }
  }

  /** The number an array or object has after one trip. */
  function Settled(n: Num): Num {
    match Stored(NumToLua(n))
    case Integer(i) => Whole(i)
    case LuaFloat(r) => Float(r)
    case _ => n
  }

  lemma ReadsWholeExact(r: real)
    requires Double(r) && ReadsWhole(r)
    ensures Exact(Truncate(r)) && IsI64(Truncate(r))
  {
    if r == r.Floor as real {
      WholeReadsBack(r.Floor);
      WholeDoubleExact(r);
    } else {
      var m, k :| Ratio(r, m, k);
      FractionKept(r, m, k);
      assert -1.0 < r < 1.0 && Truncate(r) == 0;
    }
  }

  lemma WholeIsDouble(i: int)
    ensures Double(ToDouble(i) as real)
  {
    DoubleIsExact(i);
    assert (ToDouble(i) as real).Floor == ToDouble(i);
  }

  lemma SettledKept(n: Num)
    requires n.Float? ==> Double(n.r)
    ensures KeptNumber(Settled(n))
    ensures Stored(NumToLua(n)) == if Settled(n).Whole? then Integer(Settled(n).i) else LuaFloat(Settled(n).r)
  {
    var r := if n.Float? then n.r else ToDouble(n.i) as real;
    if n.Whole? { WholeIsDouble(n.i); }
    if ReadsWhole(r) { ReadsWholeExact(r); }
  }

  /** Every float in the document is one, which their type says. */
  ghost predicate Doubles(j: Json)
    decreases j
  {
    match j
    case Number(Float(r)) => Double(r)
    case Array(items) => forall i :: 0 <= i < |items| ==> Doubles(items[i])
    case Object(fields) => forall k :: k in fields ==> Doubles(fields[k])
    case _ => true
  }

  // ---------------------------------------------------------------------------
  // One trip normalises.

  /** The document comes back, as one that a further trip keeps. */
  ghost predicate Normalised(vm: Vm, j: Json) { Back(vm, j).Ok? && Keeps(Back(vm, j).value) }

  lemma NumberNormal(vm: Vm, n: Num)
    requires n.Float? ==> Double(n.r)
    ensures Normalised(vm, Number(n))
  {
    SettledKept(n);
  }

  /** A table that reads as an array, all of whose values come back normalised. */
  lemma ArrayNormal(vm: Vm, t: Entries)
    requires IsArray(vm, t)
    requires forall k :: k in t ==> LuaToJson(vm, t[k]).Ok? && Keeps(LuaToJson(vm, t[k]).value)
    ensures LuaToJson(vm, Table(t)).Ok? && Keeps(LuaToJson(vm, Table(t)).value)
  {
    var n := vm.rawLen(t);
    ItemsOfAll(vm, Table(t), n);
    var r := ItemsOf(vm, Table(t), n);
    assert LuaToJson(vm, Table(t)) == Ok(Array(r.values));
    forall i | 0 <= i < n ensures Keeps(r.values[i]) {
      assert Ok(r.values[i]) == LuaToJson(vm, t[IntKey(i + 1)]);
    }
  }

  /** Any other table. */
  lemma ObjectNormal(vm: Vm, t: Entries)
    requires Valid(vm) && !IsArray(vm, t)
    requires forall k :: k in t ==> LuaToJson(vm, t[k]).Ok? && Keeps(LuaToJson(vm, t[k]).value)
    ensures LuaToJson(vm, Table(t)).Ok? && Keeps(LuaToJson(vm, Table(t)).value)
  {
    var fields := map name | name in Names(vm, t) :: FieldOf(vm, Table(t), name);
    assert LuaToJson(vm, Table(t)) == Ok(Object(fields));
    forall name | name in fields ensures Keeps(fields[name]) {
      assert vm.lastKey(t, name) in t;
    }
  }

  lemma TableNormal(vm: Vm, t: Entries)
    requires Valid(vm)
    requires forall k :: k in t ==> LuaToJson(vm, t[k]).Ok? && Keeps(LuaToJson(vm, t[k]).value)
    ensures LuaToJson(vm, Table(t)).Ok? && Keeps(LuaToJson(vm, Table(t)).value)
  {
    if IsArray(vm, t) { ArrayNormal(vm, t); } else { ObjectNormal(vm, t); }
  }

  /** The entries of an array come from its items that are not null. */
  lemma {:induction false} EntryOfItem(vm: Vm, j: Json, n: nat, key: Key) returns (i: nat)
    requires j.Array? && n <= |j.items| && key in ItemEntries(vm, j, n)
    ensures i < n && !j.items[i].Null? && ItemEntries(vm, j, n)[key] == Stored(JsonToLua(vm, j.items[i]))
    decreases n
  {
    if !j.items[n - 1].Null? && key == IntKey(n) {
      i := n - 1;
    } else {
      i := EntryOfItem(vm, j, n - 1, key);
    }
  }

  lemma {:induction false} InnerNormal(vm: Vm, j: Json)
    requires Valid(vm) && Doubles(j) && !j.Null?
    ensures Normalised(vm, j)
    decreases j
  {
    match j {
      case Array(items) =>
        var t := ItemEntries(vm, j, |items|);
        forall k | k in t ensures LuaToJson(vm, t[k]).Ok? && Keeps(LuaToJson(vm, t[k]).value) {
          var i := EntryOfItem(vm, j, |items|, k);
          InnerNormal(vm, items[i]);
        }
        TableNormal(vm, t);
      case Object(fields) =>
        var t := FieldTable(vm, j);
        forall k | k in t ensures LuaToJson(vm, t[k]).Ok? && Keeps(LuaToJson(vm, t[k]).value) {
          FieldTableAt(vm, j, k);
          InnerNormal(vm, fields[k.s]);
        }
        TableNormal(vm, t);
      case Number(n) => NumberNormal(vm, n);
      case _ =>
    }
  }

  lemma TopNormal(vm: Vm, j: Json)
    requires Valid(vm) && Doubles(j)
    ensures LuaToJson(vm, JsonToLua(vm, j)).Ok? && KeepsTop(LuaToJson(vm, JsonToLua(vm, j)).value)
  {
    if !j.Null? && !j.Number? { InnerNormal(vm, j); }
  }

  /** Every document, whatever it loses, comes back as one that the next trip does not change. */
  lemma OneTripNormalises(vm: Vm, j: Json)
    requires Valid(vm) && Doubles(j)
    ensures var r := LuaToJson(vm, JsonToLua(vm, j)); r.Ok? && LuaToJson(vm, JsonToLua(vm, r.value)) == r
  {
    TopNormal(vm, j);
    RoundTrip(vm, LuaToJson(vm, JsonToLua(vm, j)).value);
  }
}
