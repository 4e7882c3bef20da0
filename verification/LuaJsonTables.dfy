/** What tables become, and what becomes tables, entry by entry. */
module LuaJsonTables {
  import opened LuaJson
  import opened LuaJsonTheorems

  // ---------------------------------------------------------------------------
  // The text of whole numbers.

  function ValueOf(s: string): int {
    if s == [] then 0 else 10 * ValueOf(s[..|s| - 1]) + (s[|s| - 1] as int - '0' as int)
  }

  lemma {:induction false} DigitsRead(n: nat)
    ensures ValueOf(Digits(n)) == n && Digits(n) != [] && forall c :: c in Digits(n) ==> '0' <= c <= '9'
    decreases n
  {
    var last := [Digit(n % 10)];
    if n < 10 {
      assert last[..0] == [] && ValueOf(last) == n;
    } else {
      DigitsRead(n / 10);
      var s := Digits(n / 10) + last;
      assert s[..|s| - 1] == Digits(n / 10);
    }
  }

  function ReadDecimal(s: string): int { if s != [] && s[0] == '-' then -ValueOf(s[1..]) else ValueOf(s) }

  /** The text of a whole key reads back as the key, so different keys have different texts. */
  lemma DecimalReads(i: int)
    ensures ReadDecimal(Decimal(i)) == i
    ensures forall j :: Decimal(j) == Decimal(i) ==> j == i
  {
    DecimalValue(i);
    forall j | Decimal(j) == Decimal(i) ensures j == i { DecimalValue(j); }
  }

  lemma DecimalValue(i: int)
    ensures ReadDecimal(Decimal(i)) == i
  {
    DigitsRead(if i < 0 then -i else i);
    if i < 0 {
      assert Decimal(i)[1..] == Digits(-i);
    } else {
      assert Digits(i)[0] in Digits(i);
    }
  }

  // ---------------------------------------------------------------------------
  // Tables to JSON.

  /** The key is a string or a number, and `name` is its text. */
  predicate HasText(vm: Vm, k: Key, name: string) {
    match k
    case StrKey(s) => s == name
    case IntKey(i) => Decimal(i) == name
    case FloatKey(r) => vm.text(r) == name
    case OtherKey(_) => false
  }

  /** The table has the entries 1 to n, for an n > 0 that is its length. */
  predicate ReadsAsArray(vm: Vm, t: Entries) {
    vm.rawLen(t) > 0 && forall i :: 1 <= i <= vm.rawLen(t) ==> IntKey(i) in t
  }

  predicate AllConvert(vm: Vm, t: Entries) {
    forall k :: k in t && !k.OtherKey? ==> LuaToJson(vm, t[k]).Ok?
  }

  predicate OnlyKey(vm: Vm, t: Entries, k: Key, name: string) {
    k in t && HasText(vm, k, name) && forall other :: other in t && HasText(vm, other, name) ==> other == k
  }

  /** Any table that does not read as an array becomes the object whose field names are exactly the texts of its
      string and number keys; a field holds the converted value of a key with its text, the only one if there is
      one. One such value that does not convert fails the whole. */
  lemma TableToObject(vm: Vm, t: Entries)
    requires Valid(vm) && !ReadsAsArray(vm, t)
    ensures var r := LuaToJson(vm, Table(t));
            && (r.Ok? <==> AllConvert(vm, t))
            && (r.Ok? ==>
                  && r.value.Object?
                  && (forall name :: name in r.value.fields <==> exists k :: k in t && HasText(vm, k, name))
                  && (forall name :: name in r.value.fields ==>
                        exists k :: k in t && HasText(vm, k, name) && LuaToJson(vm, t[k]) == Ok(r.value.fields[name]))
                  && (forall k, name :: OnlyKey(vm, t, k, name) ==>
                        LuaToJson(vm, t[k]) == Ok(r.value.fields[name])))
  {
    assert !IsArray(vm, t);
    if AllConvert(vm, t) {
      var fields := map name | name in Names(vm, t) :: FieldOf(vm, Table(t), name);
      assert LuaToJson(vm, Table(t)) == Ok(Object(fields));
      forall name ensures name in fields <==> exists k :: k in t && HasText(vm, k, name) { NameOfKey(vm, t, name); }
      forall name | name in fields
        ensures exists k :: k in t && HasText(vm, k, name) && LuaToJson(vm, t[k]) == Ok(fields[name])
      {
        LastKeyHasText(vm, t, name);
        assert vm.lastKey(t, name) in t;
      }
    }
  }

  lemma NameOfKey(vm: Vm, t: Entries, name: string)
    ensures name in Names(vm, t) <==> exists k :: k in t && HasText(vm, k, name)
  {
    if k :| k in t && HasText(vm, k, name) { assert Textual(k) && KeyText(vm, k) == name; }
    if name in Names(vm, t) {
      var k :| k in t && Textual(k) && KeyText(vm, k) == name;
      assert HasText(vm, k, name);
    }
  }

  lemma LastKeyHasText(vm: Vm, t: Entries, name: string)
    requires Valid(vm) && name in Names(vm, t)
    ensures vm.lastKey(t, name) in t && HasText(vm, vm.lastKey(t, name), name)
  {
  }

  /** A table that reads as an array becomes the array of its converted entries 1 to n, in order; other entries are
      dropped. One of these that does not convert fails the whole. */
  lemma TableToArray(vm: Vm, t: Entries)
    requires ReadsAsArray(vm, t)
    ensures var r, n := LuaToJson(vm, Table(t)), vm.rawLen(t);
            && (r.Ok? <==> forall i :: 1 <= i <= n ==> LuaToJson(vm, t[IntKey(i)]).Ok?)
            && (r.Ok? ==> r.value.Array? && |r.value.items| == n)
            && (r.Ok? ==> forall i :: 0 <= i < n ==> LuaToJson(vm, t[IntKey(i + 1)]) == Ok(r.value.items[i]))
  {
    ItemsOfAll(vm, Table(t), vm.rawLen(t));
  }

  // ---------------------------------------------------------------------------
  // JSON to tables.

  /** An array becomes the table of its items that are not null, each under its place from 1 on. */
  lemma ArrayToTable(vm: Vm, items: seq<Json>)
    ensures var v := JsonToLua(vm, Array(items));
            && v.Table?
            && (forall k :: k in v.entries <==> k.IntKey? && 1 <= k.i <= |items| && !items[k.i - 1].Null?)
            && (forall i :: 0 <= i < |items| && !items[i].Null? ==>
                  v.entries[IntKey(i + 1)] == Stored(JsonToLua(vm, items[i])))
  {
    var j := Array(items);
    var t := ItemEntries(vm, j, |items|);
    forall k ensures k in t <==> k.IntKey? && 1 <= k.i <= |items| && !items[k.i - 1].Null? {
      if k.IntKey? { ItemEntriesAt(vm, j, |items|, k.i); } else { OnlyIntKeys(vm, j, |items|, k); }
    }
    forall i | 0 <= i < |items| && !items[i].Null? ensures t[IntKey(i + 1)] == Stored(JsonToLua(vm, items[i])) {
      ItemEntriesAt(vm, j, |items|, i + 1);
    }
  }

  lemma {:induction false} OnlyIntKeys(vm: Vm, j: Json, n: nat, k: Key)
    requires j.Array? && n <= |j.items| && !k.IntKey?
    ensures k !in ItemEntries(vm, j, n)
    decreases n
  {
    if n > 0 { OnlyIntKeys(vm, j, n - 1, k); }
  }

  /** An object becomes the table of its fields that are not null. */
  lemma ObjectToTable(vm: Vm, fields: map<string, Json>)
    ensures var v := JsonToLua(vm, Object(fields));
            && v.Table?
            && (forall k :: k in v.entries <==> k.StrKey? && k.s in fields && !fields[k.s].Null?)
            && (forall name :: name in fields && !fields[name].Null? ==>
                  v.entries[StrKey(name)] == Stored(JsonToLua(vm, fields[name])))
  {
    var j := Object(fields);
    forall k ensures k in FieldTable(vm, j) <==> k.StrKey? && k.s in fields && !fields[k.s].Null? {
      FieldTableAt(vm, j, k);
    }
    forall name | name in fields && !fields[name].Null?
      ensures FieldTable(vm, j)[StrKey(name)] == Stored(JsonToLua(vm, fields[name]))
    {
      FieldTableAt(vm, j, StrKey(name));
    }
  }
}
