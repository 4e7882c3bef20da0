/** What a script gets back of a value it stored, for any value and whatever the VM decides. */
module LuaJsonReturns {
  import opened LuaJson
  import opened LuaJsonTheorems
  import opened LuaJsonTables

  /** The value is serialized, and what is read from that is the same value. */
  predicate Returns(vm: Vm, v: Lua) { LuaToJson(vm, v).Ok? && JsonToLua(vm, LuaToJson(vm, v).value) == v }

  predicate AllNamed(t: Entries) { forall k :: k in t ==> k.StrKey? }

  predicate Spans(t: Entries, n: nat) {
    && (forall i :: 1 <= i <= n ==> IntKey(i) in t)
    && (forall k :: k in t ==> k.IntKey? && 1 <= k.i <= n)
  }

  /** The keys are strings only, or exactly 1 to n for some n. */
  ghost predicate Clean(t: Entries) { AllNamed(t) || exists n: nat :: Spans(t, n) }

  /** Nothing in the value is a function, a userdata, an infinity or NaN; its tables are lists without holes or have
      string keys only; and every number in a table is one that a table can hold. */
  ghost predicate Lasts(v: Lua)
    decreases v
  {
    match v
    case Integer(i) => IsI64(i)
    case NonFinite => false
    case Foreign => false
    case Table(t) => Clean(t) && forall k :: k in t ==> !t[k].Nil? && Stored(t[k]) == t[k] && Lasts(t[k])
    case _ => true
  }

  /** An entry of a table that is put back under its key. */
  predicate EntryReturns(vm: Vm, v: Lua) {
    && LuaToJson(vm, v).Ok? && !LuaToJson(vm, v).value.Null?
    && Stored(JsonToLua(vm, LuaToJson(vm, v).value)) == v
  }

  /** The length of a list without holes is no choice of the VM's. */
  lemma SpanIsLength(vm: Vm, t: Entries, n: nat)
    requires Valid(vm) && Spans(t, n)
    ensures vm.rawLen(t) == n
  {
    assert Border(t, vm.rawLen(t));
    assert vm.rawLen(t) + 1 <= n ==> IntKey(vm.rawLen(t) + 1) in t;
  }

  lemma NamedIsNoArray(vm: Vm, t: Entries)
    requires AllNamed(t)
    ensures !ReadsAsArray(vm, t)
  {
    if vm.rawLen(t) > 0 { assert IntKey(1) !in t; }
  }

  lemma ListReturns(vm: Vm, t: Entries)
    requires ReadsAsArray(vm, t)
    ensures Returns(vm, Table(t)) <==> Spans(t, vm.rawLen(t)) && forall k :: k in t ==> EntryReturns(vm, t[k])
  {
    var n := vm.rawLen(t);
    TableToArray(vm, t);
    if LuaToJson(vm, Table(t)).Ok? { ListBack(vm, t, LuaToJson(vm, Table(t)).value.items); }
    else if Spans(t, n) {
      var i :| 1 <= i <= n && LuaToJson(vm, t[IntKey(i)]).Err?;
      assert IntKey(i) in t && !EntryReturns(vm, t[IntKey(i)]);
    }
  }

  lemma ListBack(vm: Vm, t: Entries, items: seq<Json>)
    requires ReadsAsArray(vm, t) && |items| == vm.rawLen(t)
    requires forall i :: 0 <= i < |items| ==> LuaToJson(vm, t[IntKey(i + 1)]) == Ok(items[i])
    ensures JsonToLua(vm, Array(items)) == Table(t)
       <==> Spans(t, vm.rawLen(t)) && forall k :: k in t ==> EntryReturns(vm, t[k])
  {
    ArrayToTable(vm, items);
    var back := JsonToLua(vm, Array(items)).entries;
    if back == t {
      forall k | k in t ensures k.IntKey? && 1 <= k.i <= |items| && EntryReturns(vm, t[k]) {
        assert k in back && items[k.i - 1] == LuaToJson(vm, t[k]).value;
      }
    }
    if Spans(t, |items|) && forall k :: k in t ==> EntryReturns(vm, t[k]) {
      forall i | 0 <= i < |items| ensures !items[i].Null? && Stored(JsonToLua(vm, items[i])) == t[IntKey(i + 1)] {
        assert EntryReturns(vm, t[IntKey(i + 1)]);
      }
      forall k ensures k in back <==> k in t { if k in back { assert IntKey(k.i) in t; } }
      assert back == t;
    }
  }

  /** The fields are the entries of `t`, converted. */
  predicate FieldsOf(vm: Vm, t: Entries, fields: map<string, Json>) {
    && (forall k :: k in t ==> k.StrKey? && k.s in fields && LuaToJson(vm, t[k]) == Ok(fields[k.s]))
    && (forall name :: name in fields ==> StrKey(name) in t)
  }

  lemma NamedFields(vm: Vm, t: Entries)
    requires Valid(vm) && AllNamed(t) && LuaToJson(vm, Table(t)).Ok?
    ensures LuaToJson(vm, Table(t)).value.Object?
    ensures FieldsOf(vm, t, LuaToJson(vm, Table(t)).value.fields)
  {
    NamedIsNoArray(vm, t);
    TableToObject(vm, t);
    forall k | k in t ensures OnlyKey(vm, t, k, k.s) { NamedOnly(vm, t, k); }
  }

  lemma NamedOnly(vm: Vm, t: Entries, k: Key)
    requires AllNamed(t) && k in t
    ensures OnlyKey(vm, t, k, k.s)
  {
  }

  lemma ObjectBack(vm: Vm, t: Entries, fields: map<string, Json>)
    requires FieldsOf(vm, t, fields)
    ensures JsonToLua(vm, Object(fields)) == Table(t) <==> forall k :: k in t ==> EntryReturns(vm, t[k])
  {
    ObjectToTable(vm, fields);
    var back := JsonToLua(vm, Object(fields)).entries;
    forall k | k in t ensures k in back && back[k] == t[k] <==> EntryReturns(vm, t[k]) { assert k == StrKey(k.s); }
    forall k | k in back ensures k in t { assert k == StrKey(k.s); }
    if forall k :: k in t ==> k in back && back[k] == t[k] { assert back == t; }
  }

  lemma OnlyNamedBack(vm: Vm, fields: map<string, Json>)
    ensures JsonToLua(vm, Object(fields)).Table? && AllNamed(JsonToLua(vm, Object(fields)).entries)
  {
    ObjectToTable(vm, fields);
  }

  lemma ConvertsToObject(vm: Vm, t: Entries)
    requires Valid(vm) && !ReadsAsArray(vm, t)
    ensures LuaToJson(vm, Table(t)).Ok? <==> AllConvert(vm, t)
    ensures LuaToJson(vm, Table(t)).Ok? ==> LuaToJson(vm, Table(t)).value.Object?
  {
    TableToObject(vm, t);
  }

  lemma ObjectReturns(vm: Vm, t: Entries)
    requires Valid(vm) && !ReadsAsArray(vm, t)
    ensures Returns(vm, Table(t)) <==> AllNamed(t) && forall k :: k in t ==> EntryReturns(vm, t[k])
  {
    ConvertsToObject(vm, t);
    if LuaToJson(vm, Table(t)).Ok? {
      var fields := LuaToJson(vm, Table(t)).value.fields;
      OnlyNamedBack(vm, fields);
      if AllNamed(t) {
        NamedFields(vm, t);
        ObjectBack(vm, t, fields);
      }
    } else if AllNamed(t) {
      var k :| k in t && !k.OtherKey? && LuaToJson(vm, t[k]).Err?;
      assert !EntryReturns(vm, t[k]);
    }
  }

  lemma TableReturns(vm: Vm, t: Entries)
    requires Valid(vm)
    ensures Returns(vm, Table(t)) <==> Clean(t) && forall k :: k in t ==> EntryReturns(vm, t[k])
  {
    if n: nat :| Spans(t, n) { SpanIsLength(vm, t, n); }
    if ReadsAsArray(vm, t) {
      ListReturns(vm, t);
      if AllNamed(t) { NamedIsNoArray(vm, t); }
    } else {
      ObjectReturns(vm, t);
      if n: nat :| Spans(t, n) { assert n == 0; }
    }
  }

  /** An entry returns if it would return by itself, is there, and is as a table holds it. */
  lemma EntryIff(vm: Vm, v: Lua)
    ensures EntryReturns(vm, v) <==> !v.Nil? && Stored(v) == v && Returns(vm, v)
  {
  }

  /** Whatever the VM decides, a value that is stored and read again is the same value exactly when nothing in it is a
      function, a userdata, an infinity or NaN, its tables are lists without holes or have string keys only, and
      its numbers are such as tables hold. */
  lemma {:induction false} ReturnsIff(vm: Vm, v: Lua)
    requires Valid(vm)
    ensures Returns(vm, v) <==> Lasts(v)
    decreases v
  {
    if v.Table? {
      TableReturns(vm, v.entries);
      forall k | k in v.entries
        ensures EntryReturns(vm, v.entries[k])
           <==> !v.entries[k].Nil? && Stored(v.entries[k]) == v.entries[k] && Lasts(v.entries[k])
      {
        EntryIff(vm, v.entries[k]);
        ReturnsIff(vm, v.entries[k]);
      }
    }
  }

  /** Of the values that do not last, an infinity or NaN is stored as null, and besides nil nothing else is; a value is
      refused for a function or userdata among the entries that are converted. */
  lemma NullOrRefused(vm: Vm, v: Lua)
    requires Valid(vm)
    ensures LuaToJson(vm, v) == Ok(Null) <==> v.Nil? || v.NonFinite?
    ensures LuaToJson(vm, v).Err?
       <==> || v.Foreign?
            || (v.Table? && exists k :: k in v.entries && Looked(vm, v.entries, k) && LuaToJson(vm, v.entries[k]).Err?)
  {
    if v.Table? {
      var t := v.entries;
      if ReadsAsArray(vm, t) {
        TableToArray(vm, t);
        assert forall i :: 1 <= i <= vm.rawLen(t) ==> Looked(vm, t, IntKey(i));
      } else {
        TableToObject(vm, t);
      }
    }
  }

  /** The entries that are converted: those of a list up to its length, and otherwise those with a text. */
  predicate Looked(vm: Vm, t: Entries, k: Key) {
    if ReadsAsArray(vm, t) then k.IntKey? && 1 <= k.i <= vm.rawLen(t) else !k.OtherKey?
  }
}
