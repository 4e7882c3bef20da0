/** Converting between Lua values and JSON (crates/sni-lua-api/src/lib.rs, `lua_to_json`, `json_to_lua`). */
module LuaJson {
  const I64_MIN: int := -0x8000_0000_0000_0000
  const I64_MAX: int := 0x7FFF_FFFF_FFFF_FFFF

  /** Integers of JSON range up to the largest u64; floats are finite. */
  datatype Num = Whole(i: int) | Float(r: real)

  datatype Json =
    | Null
    | Bool(b: bool)
    | Number(n: Num)
    | Str(s: string)
    | Array(items: seq<Json>)
    | Object(fields: map<string, Json>)

  datatype Key = IntKey(i: int) | StrKey(s: string) | FloatKey(r: real) | OtherKey(tag: nat)

  datatype Lua =
    | Nil
    | Boolean(b: bool)
    | Integer(i: int)
    | LuaFloat(r: real)
    | NonFinite
    | LuaString(s: string)
    | Table(entries: map<Key, Lua>)
    | Foreign // functions, userdata and the like

  type Entries = map<Key, Lua>

  /** What the Lua VM decides: which border `#t` reports, and which of several keys with one text comes last in
      an iteration; and how a float prints. */
  datatype Vm = Vm(rawLen: Entries -> nat, lastKey: (Entries, string) -> Key, text: real -> string)

  /** `#t` may report any n with t[n] present (or n = 0) and t[n + 1] absent. */
  predicate Border(t: Entries, n: nat) { (n == 0 || IntKey(n) in t) && IntKey(n + 1) !in t }

  predicate Textual(k: Key) { !k.OtherKey? }

  function Digit(d: nat): char
    requires d < 10
  {
    ('0' as int + d) as char
  }

  function Digits(n: nat): string { if n < 10 then [Digit(n)] else Digits(n / 10) + [Digit(n % 10)] }

  function Decimal(i: int): string { if i < 0 then "-" + Digits(-i) else Digits(i) }

  function KeyText(vm: Vm, k: Key): string {
    match k
    case StrKey(s) => s
    case IntKey(i) => Decimal(i)
    case FloatKey(r) => vm.text(r)
    case OtherKey(_) => ""
  }

  function Names(vm: Vm, t: Entries): set<string> { set k | k in t && Textual(k) :: KeyText(vm, k) }

  ghost predicate Valid(vm: Vm) {
    && (forall t :: Border(t, vm.rawLen(t)))
    && (forall t, name :: name in Names(vm, t) ==>
          vm.lastKey(t, name) in t && Textual(vm.lastKey(t, name)) && KeyText(vm, vm.lastKey(t, name)) == name)
  }

  // ---------------------------------------------------------------------------
  // Numbers. A table of this VM (LuaJIT) holds doubles; the binding reads a double back as an integer when it
  // is an i64 within one epsilon of it.

  const EXACT: nat := 0x20_0000_0000_0000 // 2^53: below it every whole number is a double
  const EPSILON: real := 1.0 / 0x10_0000_0000_0000 as real // 2^-52

  predicate IsI64(i: int) { I64_MIN <= i <= I64_MAX }

  function Abs(i: int): nat { if i < 0 then -i else i }

  /** The distance between neighbouring doubles around a whole number, where that is at least 1. */
  function Spacing(n: nat): (u: nat)
    ensures u >= 1
  {
    if n < EXACT then 1 else 2 * Spacing(n / 2)
  }

  /** The nearest multiple of `u`; a tie goes to the even one. */
  function Nearest(n: nat, u: nat): nat
    requires u >= 1
  {
    var q, r := n / u, n % u;
    if 2 * r < u || (2 * r == u && q % 2 == 0) then n - r else n - r + u
  }

  function RoundNat(n: nat): nat { Nearest(n, Spacing(n)) }

  /** The double nearest to a whole number. */
  function ToDouble(i: int): int { if i < 0 then 0 - RoundNat(-i) else RoundNat(i) }

  /** `as i64` drops the fraction. */
  function Truncate(r: real): int { if r >= 0.0 then r.Floor else -((-r).Floor) }

  predicate ReadsWhole(r: real) {
    I64_MIN as real <= r < (I64_MAX + 1) as real && -EPSILON < r - Truncate(r) as real < EPSILON
  }

  function ReadDouble(r: real): Lua { if ReadsWhole(r) then Integer(Truncate(r)) else LuaFloat(r) }

  /** A value after a table held it. */
  function Stored(v: Lua): Lua {
    match v
    case Integer(i) => ReadDouble(ToDouble(i) as real)
    case LuaFloat(r) => ReadDouble(r)
    case _ => v
  }

  // ---------------------------------------------------------------------------
  // JSON to Lua.

  function NumToLua(n: Num): Lua {
    match n
    case Whole(i) => if IsI64(i) then Integer(i) else LuaFloat(ToDouble(i) as real)
    case Float(r) => LuaFloat(r)
  }

  /** `json_to_lua`; setting an entry to nil leaves no entry. */
  function JsonToLua(vm: Vm, j: Json): Lua
    decreases j, 1
  {
    match j
    case Null => Nil
    case Bool(b) => Boolean(b)
    case Number(n) => NumToLua(n)
    case Str(s) => LuaString(s)
    case Array(items) => Table(ItemEntries(vm, j, |items|))
    case Object(fields) => Table(FieldTable(vm, j))
  }

  /** The fields that are not null. */
  function Present(fields: map<string, Json>): set<string> { set k | k in fields && !fields[k].Null? }

  /** One entry for each field that is not null. */
  function FieldTable(vm: Vm, j: Json): Entries
    requires j.Object?
    decreases j, 0, 1
  {
    map k | k in Present(j.fields) :: StrKey(k) := FieldEntry(vm, j, k)
  }

  function FieldEntry(vm: Vm, j: Json, k: string): Lua
    decreases j, 0, 0
  {
    if j.Object? && k in j.fields then Stored(JsonToLua(vm, j.fields[k])) else Nil
  }

  /** The 1-based entries of the first `n` items. */
  function ItemEntries(vm: Vm, j: Json, n: nat): Entries
    requires j.Array? && n <= |j.items|
    decreases j, 0, n
  {
    if n == 0 then map[]
    else
      var before := ItemEntries(vm, j, n - 1);
      if j.items[n - 1].Null? then before else before[IntKey(n) := Stored(JsonToLua(vm, j.items[n - 1]))]
  }

  // ---------------------------------------------------------------------------
  // Lua to JSON.

  datatype Result = Ok(value: Json) | Err

  datatype Items = Items(values: seq<Json>) | BadItem

  predicate IsArray(vm: Vm, t: Entries) {
    vm.rawLen(t) > 0 && forall i :: 1 <= i <= vm.rawLen(t) ==> IntKey(i) in t
  }

  /** `lua_to_json`; a value that cannot be serialized anywhere inside fails the whole conversion. */
  function LuaToJson(vm: Vm, v: Lua): Result
    decreases v, 1
  {
    match v
    case Nil => Ok(Null)
    case Boolean(b) => Ok(Bool(b))
    case Integer(i) => Ok(Number(Whole(i)))
    case LuaFloat(r) => Ok(Number(Float(r)))
    case NonFinite => Ok(Null)
    case LuaString(s) => Ok(Str(s))
    case Foreign => Err
    case Table(t) =>
      if IsArray(vm, t) then
        var items := ItemsOf(vm, v, vm.rawLen(t));
        if items.Items? then Ok(Array(items.values)) else Err
      else if exists k :: k in t && Textual(k) && LuaToJson(vm, t[k]).Err? then Err
      else Ok(Object(map name | name in Names(vm, t) :: FieldOf(vm, v, name)))
  }

  function ItemsOf(vm: Vm, v: Lua, n: nat): Items
    requires v.Table? && forall i :: 1 <= i <= n ==> IntKey(i) in v.entries
    decreases v, 0, n
  {
    if n == 0 then Items([])
    else
      var before := ItemsOf(vm, v, n - 1);
      var last := LuaToJson(vm, v.entries[IntKey(n)]);
      if before.Items? && last.Ok? then Items(before.values + [last.value]) else BadItem
  }

  /** The field `name` of an object: the entry inserted last under that text. */
  function FieldOf(vm: Vm, v: Lua, name: string): Json
    requires v.Table?
    decreases v, 0, 0
  {
    var k := vm.lastKey(v.entries, name);
    if k in v.entries then
      var r := LuaToJson(vm, v.entries[k]);
      if r.Ok? then r.value else Null
    else Null
  }
}
