/** The shared entity logic of the Home Assistant platforms (`entity.py`):
    the postfix conversion programs adapters attach to parameters, reading
    and writing field values through them, unit lookup, and the entity's
    unique id and display name. */
module Entity {
  import opened Wrappers
  import opened Dicts
  import opened JsonValues
  import opened Models
  import Constants

  // ------------------------------------------------------------ conversion programs

  /** A stack slot.  Every pushed value is a float except the `0` a division
      by zero pushes, which is an int; sums, differences and products of two
      ints stay ints (and so are always the int 0). */
  datatype Num = Num(val: real, isInt: bool)

  predicate WellFormed(n: Num) { n.isInt ==> n.val == 0.0 }

  /** What the stack's bottom value is once handed back. */
  function NumToJson(n: Num): Json
  {
    if n.isInt then JInt(n.val.Floor) else JFloat(n.val)
  }

  datatype ConvError =
    | StackUnderflow      // `stack.pop()` on an empty list: IndexError
    | SelfNotANumber      // `float(value)` on a value that is not a number
    | RulesNotIterable    // `for item in rules` over a number or a bool
    | ConvertNotADict     // `convert.get(...)` on a truthy non-dict

  predicate IsOperator(t: Json)
  {
    t == JStr("+") || t == JStr("-") || t == JStr("*") || t == JStr("/")
  }

  /** `a <op> b`, with `/` pushing the int 0 when `b` is zero. */
  function Arith(op: string, a: Num, b: Num): (r: Num)
    requires op in {"+", "-", "*", "/"}
    ensures WellFormed(a) && WellFormed(b) ==> WellFormed(r)
  {
    if op == "+" then Num(a.val + b.val, a.isInt && b.isInt)
    else if op == "-" then Num(a.val - b.val, a.isInt && b.isInt)
    else if op == "*" then Num(a.val * b.val, a.isInt && b.isInt)
    else if b.val == 0.0 then Num(0.0, true)
    else Num(a.val / b.val, false)
  }

  /** One turn of the evaluator loop on `item`. */
  function Step(value: Json, stack: seq<Num>, item: Json): Result<seq<Num>, ConvError>
  {
    if item == JStr("self") then
      if NumOf(value).Some? then Ok(stack + [Num(NumOf(value).value, false)]) else Err(SelfNotANumber)
    else if NumOf(item).Some? then Ok(stack + [Num(NumOf(item).value, false)])
    else if IsOperator(item) then
      if |stack| < 2 then Err(StackUnderflow)
      else Ok(stack[..|stack| - 2] + [Arith(item.s, stack[|stack| - 2], stack[|stack| - 1])])
    else Ok(stack)
  }

  /** The stack after running `items` from an empty stack. */
  function Run(value: Json, items: seq<Json>): Result<seq<Num>, ConvError>
  {
    if items == [] then Ok([])
    else
      match Run(value, items[..|items| - 1])
      case Err(e) => Err(e)
      case Ok(stack) => Step(value, stack, items[|items| - 1])
  }

  /** `_apply_conversion(value, rules)`: an empty (falsy) program returns the
      value unchanged, otherwise the bottom of the final stack, or the value
      when the stack ends empty. */
  function Conversion(value: Json, rules: Json): Result<Json, ConvError>
  {
    if !Truthy(rules) then Ok(value)
    else
      match Iterate(rules)
      case None => Err(RulesNotIterable)
      case Some(items) =>
        match Run(value, items)
        case Err(e) => Err(e)
        case Ok(stack) => Ok(if stack == [] then value else NumToJson(stack[0]))
  }

  lemma {:induction false} RunErrorPersists(value: Json, items: seq<Json>, n: nat)
    requires 0 < n <= |items|
    requires Run(value, items[..n]).Err?
    ensures Run(value, items) == Run(value, items[..n])
    ensures Conversion(value, JArr(items)) == Err(Run(value, items[..n]).error)
    decreases |items| - n
  {
    if n < |items| {
      assert items[..n + 1][..n] == items[..n];
      RunErrorPersists(value, items, n + 1);
    } else {
      assert items[..n] == items;
    }
  }

  /** The evaluator loop, pushing and popping a stack. */
  method ApplyConversion(value: Json, rules: Json) returns (r: Result<Json, ConvError>)
    ensures r == Conversion(value, rules)
  {
    if !Truthy(rules) {
      return Ok(value);
    }
    var items := Iterate(rules);
    if items.None? {
      return Err(RulesNotIterable);
    }
    var xs := items.value;
    var stack: seq<Num> := [];
    var i := 0;
    while i < |xs|
      invariant 0 <= i <= |xs|
      invariant Run(value, xs[..i]) == Ok(stack)
    {
      RunPrefix(value, xs, i);
      var item := xs[i];
      if item == JStr("self") {
        if NumOf(value).None? {
          RunErrorPersists(value, xs, i + 1);
          return Err(SelfNotANumber);
        }
        stack := stack + [Num(NumOf(value).value, false)];
      } else if NumOf(item).Some? {
        stack := stack + [Num(NumOf(item).value, false)];
      } else if IsOperator(item) {
        if |stack| < 2 {
          RunErrorPersists(value, xs, i + 1);
          return Err(StackUnderflow);
        }
        var b := stack[|stack| - 1];
        var a := stack[|stack| - 2];
        stack := stack[..|stack| - 2] + [Arith(item.s, a, b)];
      }
      i := i + 1;
    }
    assert xs[..|xs|] == xs;
    r := Ok(if stack == [] then value else NumToJson(stack[0]));
  }

  lemma RunPrefix(value: Json, xs: seq<Json>, i: nat)
    requires i < |xs|
    ensures Run(value, xs[..i + 1]) ==
      if Run(value, xs[..i]).Err? then Run(value, xs[..i]) else Step(value, Run(value, xs[..i]).value, xs[i])
  {
    assert xs[..i + 1] == xs[..i] + [xs[i]];
    RunAppend(value, xs[..i], xs[i]);
  }

  /** A falsy program leaves the value as it is. */
  lemma EmptyProgram(value: Json, rules: Json)
    requires !Truthy(rules)
    ensures Conversion(value, rules) == Ok(value)
  {
  }

  lemma {:induction false} RunAppend(value: Json, items: seq<Json>, item: Json)
    ensures Run(value, items + [item]) ==
      if Run(value, items).Err? then Run(value, items) else Step(value, Run(value, items).value, item)
  {
    assert (items + [item])[..|items|] == items;
  }

  /** An operator pops the right operand, then the left, and pushes
      `left op right`. */
  lemma OperandOrder(value: Json, stack: seq<Num>, a: Num, b: Num, op: string)
    requires op in {"+", "-", "*", "/"}
    ensures Step(value, stack + [a, b], JStr(op)) == Ok(stack + [Arith(op, a, b)])
  {
    var s := stack + [a, b];
    assert s[..|s| - 2] == stack;
  }

  /** Division by a zero right operand pushes the int 0 instead of failing. */
  lemma DivisionByZero(value: Json, stack: seq<Num>, a: Num, b: Num)
    requires b.val == 0.0
    ensures Step(value, stack + [a, b], JStr("/")) == Ok(stack + [Num(0.0, true)])
  {
    OperandOrder(value, stack, a, b, "/");
  }

  /** A token that is neither `self`, a number nor an operator is ignored. */
  lemma UnknownTokenIgnored(value: Json, stack: seq<Num>, item: Json)
    requires item != JStr("self") && NumOf(item).None? && !IsOperator(item)
    ensures Step(value, stack, item) == Ok(stack)
  {
  }

  /** A run over well-formed input keeps every slot well formed. */
  lemma {:induction false} RunWellFormed(value: Json, items: seq<Json>)
    ensures Run(value, items).Ok? ==> forall i :: 0 <= i < |Run(value, items).value| ==> WellFormed(Run(value, items).value[i])
  {
    if items != [] {
      RunWellFormed(value, items[..|items| - 1]);
    }
  }

  function ScaleProgram(op: string, k: real): Json
  {
    JArr([JStr("self"), JFloat(k), JStr(op)])
  }

  lemma RunScale(value: Json, x: real, op: string, k: real)
    requires NumOf(value) == Some(x)
    requires op in {"+", "-", "*", "/"}
    ensures Conversion(value, ScaleProgram(op, k)) == Ok(NumToJson(Arith(op, Num(x, false), Num(k, false))))
  {
    var i1 := [JStr("self")];
    var i2 := i1 + [JFloat(k)];
    assert [] + [JStr("self")] == i1;
    RunAppend(value, [], JStr("self"));
    RunAppend(value, i1, JFloat(k));
    RunAppend(value, i2, JStr(op));
    assert [] + [Num(x, false)] + [Num(k, false)] == [] + [Num(x, false), Num(k, false)];
    OperandOrder(value, [], Num(x, false), Num(k, false), op);
    assert i2 + [JStr(op)] == [JStr("self"), JFloat(k), JStr(op)];
  }

  /** `["self", 10.0, "/"]` divides by ten and `["self", 100.0, "*"]`
      multiplies by a hundred. */
  lemma ScaleExamples(value: Json, x: real)
    requires NumOf(value) == Some(x)
    ensures Conversion(value, ScaleProgram("/", 10.0)) == Ok(JFloat(x / 10.0))
    ensures Conversion(value, ScaleProgram("*", 100.0)) == Ok(JFloat(x * 100.0))
  {
    RunScale(value, x, "/", 10.0);
    RunScale(value, x, "*", 100.0);
  }

  /** A divide-by-k conversion and a multiply-by-k inversion undo each other
      for any non-zero k. */
  lemma ScaleInverse(value: Json, x: real, k: real)
    requires NumOf(value) == Some(x) && k != 0.0
    ensures Conversion(value, ScaleProgram("/", k)) == Ok(JFloat(x / k))
    ensures Conversion(JFloat(x / k), ScaleProgram("*", k)) == Ok(JFloat(x))
  {
    RunScale(value, x, "/", k);
    assert Arith("/", Num(x, false), Num(k, false)) == Num(x / k, false);
    RunScale(JFloat(x / k), x / k, "*", k);
    assert (x / k) * k == x;
    assert Arith("*", Num(x / k, false), Num(k, false)) == Num(x, false);
  }

  // ------------------------------------------------------------ read and write conversion

  /** `convert.get(key)` on the parameter's `convert` value: `None` when the
      parameter has no truthy `convert`. */
  function ConversionProgram(param: Option<AdapterParam>, key: string): Result<Json, ConvError>
  {
    if param.None? || !Truthy(param.value.convert) then Ok(JNull)
    else if !param.value.convert.JObj? then Err(ConvertNotADict)
    else Ok(GetOr(param.value.convert.fields, key, JNull))
  }

  /** `_convert_from_device`. */
  function ConvertFromDevice(param: Option<AdapterParam>, value: Json): (r: Result<Json, ConvError>)
    ensures value == JNull ==> r == Ok(JNull)
    ensures value.JBool? ==> r == Ok(value)
    ensures (param.None? || !Truthy(param.value.convert)) ==> r == Ok(value)
    ensures param.Some? && param.value.convert.JObj? && !Truthy(GetOr(param.value.convert.fields, "conversion", JNull)) ==> r == Ok(value)
  {
    if value == JNull then Ok(JNull)
    else if value.JBool? then Ok(value)
    else
      match ConversionProgram(param, "conversion")
      case Err(e) => Err(e)
      case Ok(program) => Conversion(value, program)
  }

  /** `_convert_to_device`; unlike the read side, bools are converted too. */
  function ConvertToDevice(param: Option<AdapterParam>, value: Json): (r: Result<Json, ConvError>)
    ensures value == JNull ==> r == Ok(JNull)
    ensures (param.None? || !Truthy(param.value.convert)) ==> r == Ok(value)
    ensures param.Some? && param.value.convert.JObj? && !Truthy(GetOr(param.value.convert.fields, "inversion", JNull)) ==> r == Ok(value)
  {
    if value == JNull then Ok(JNull)
    else
      match ConversionProgram(param, "inversion")
      case Err(e) => Err(e)
      case Ok(program) => Conversion(value, program)
  }

  /** A bool written through an inversion program is turned into a number. */
  lemma BoolsAreInverted(param: AdapterParam, k: real)
    requires param.convert == JObj([("inversion", ScaleProgram("*", k))])
    ensures ConvertToDevice(Some(param), JBool(true)) == Ok(JFloat(k))
    ensures ConvertFromDevice(Some(param), JBool(true)) == Ok(JBool(true))
  {
    RunScale(JBool(true), 1.0, "*", k);
  }

  /** `_get_ha_unit`: `None` when there is no parameter or no truthy unit,
      else the mapped unit, or the unit itself when it has no mapping.
      A list or dict unit, which Python cannot hash, is returned as it is. */
  function HaUnit(param: Option<AdapterParam>): (u: Option<Json>)
    ensures param.None? ==> u.None?
    ensures param.Some? ==> (u.Some? <==> Truthy(GetOr(param.value.viewParams, "unit", JNull)))
    ensures u.Some? ==> var unit := GetOr(param.value.viewParams, "unit", JNull);
      u.value == if unit.JStr? && unit.s in Constants.UnitMapping then JStr(Constants.UnitMapping[unit.s]) else unit
  {
    if param.None? then None
    else
      var unit := GetOr(param.value.viewParams, "unit", JNull);
      if !Truthy(unit) then None
      else if unit.JStr? && unit.s in Constants.UnitMapping then Some(JStr(Constants.UnitMapping[unit.s]))
      else Some(unit)
  }

  lemma HaUnitExamples(param: AdapterParam)
    requires param.viewParams == [("unit", JStr("unit_C"))]
    ensures HaUnit(Some(param)) == Some(JStr("°C"))
    ensures HaUnit(Some(param.(viewParams := [("unit", JStr("furlongs"))]))) == Some(JStr("furlongs"))
    ensures HaUnit(Some(param.(viewParams := []))) == None
  {
    assert "furlongs" !in Constants.UnitMapping;
  }

  // ------------------------------------------------------------ state access

  /** `_raw_state_value`: the field's raw value, `None` when the coordinator
      has no data, no state for the device or no such field. */
  function RawStateValue(data: map<string, DeviceState>, deviceId: string, fieldId: int): (v: Json)
    ensures deviceId !in data ==> v == JNull
    ensures deviceId in data && Get(data[deviceId].properties, fieldId).Some? ==>
      v == Get(data[deviceId].properties, fieldId).value.value
    ensures deviceId in data && Get(data[deviceId].properties, fieldId).None? ==> v == JNull
  {
    if deviceId !in data then JNull
    else
      match Get(data[deviceId].properties, fieldId)
      case None => JNull
      case Some(prop) => prop.value
  }

  /** `_state_value`: the raw value read through the conversion program. */
  function StateValue(data: map<string, DeviceState>, deviceId: string, fieldId: int, param: Option<AdapterParam>): (r: Result<Json, ConvError>)
    ensures deviceId !in data ==> r == Ok(JNull)
    ensures deviceId in data && Get(data[deviceId].properties, fieldId).None? ==> r == Ok(JNull)
    ensures RawStateValue(data, deviceId, fieldId).JBool? ==> r == Ok(RawStateValue(data, deviceId, fieldId))
    ensures (param.None? || !Truthy(param.value.convert)) ==> r == Ok(RawStateValue(data, deviceId, fieldId))
  {
    ConvertFromDevice(param, RawStateValue(data, deviceId, fieldId))
  }

  /** `_async_set_value`: the write of the inverted value. */
  function SetValue(deviceId: string, fieldId: int, param: Option<AdapterParam>, value: Json): (r: Result<Write, ConvError>)
    ensures r.Ok? <==> ConvertToDevice(param, value).Ok?
    ensures r.Ok? ==> r.value == Write(deviceId, fieldId, ConvertToDevice(param, value).value)
  {
    match ConvertToDevice(param, value)
    case Err(e) => Err(e)
    case Ok(v) => Ok(Write(deviceId, fieldId, v))
  }

  // ------------------------------------------------------------ identity

  /** `f"{DOMAIN}_{device.id}_{field_id}"`. */
  function UniqueId(deviceId: string, fieldId: int): string
  {
    Constants.Domain + "_" + deviceId + "_" + IntToString(fieldId)
  }

  /** Two strings ending in `_` and an underscore-free tail split the same
      way. */
  lemma {:induction false} SplitAtLastUnderscore(a: string, s: string, b: string, t: string)
    requires '_' !in s && '_' !in t
    requires a + "_" + s == b + "_" + t
    ensures a == b && s == t
  {
    var x := a + "_" + s;
    if |s| < |t| {
      LastUnderscore(a, s, b, t);
    } else if |t| < |s| {
      LastUnderscore(b, t, a, s);
    } else {
      assert s == x[|x| - |s|..];
      assert t == x[|x| - |t|..];
      assert a == x[..|a|];
      assert b == x[..|b|];
    }
  }

  lemma LastUnderscore(a: string, s: string, b: string, t: string)
    requires |s| < |t|
    requires a + "_" + s == b + "_" + t
    ensures t[|t| - |s| - 1] == '_'
  {
    var x := a + "_" + s;
    assert x[|a|] == '_';
    assert x[|b| + 1 + (|t| - |s| - 1)] == t[|t| - |s| - 1];
  }

  /** Distinct (device, field) pairs get distinct unique ids, whatever the
      device ids contain. */
  lemma UniqueIdInjective(d1: string, f1: int, d2: string, f2: int)
    requires UniqueId(d1, f1) == UniqueId(d2, f2)
    ensures d1 == d2 && f1 == f2
  {
    IntToStringHasNoUnderscore(f1);
    IntToStringHasNoUnderscore(f2);
    var p := Constants.Domain + "_";
    assert UniqueId(d1, f1) == (p + d1) + "_" + IntToString(f1);
    assert UniqueId(d2, f2) == (p + d2) + "_" + IntToString(f2);
    SplitAtLastUnderscore(p + d1, IntToString(f1), p + d2, IntToString(f2));
    assert d1 == (p + d1)[|p|..];
    assert d2 == (p + d2)[|p|..];
    ParseIntRoundTrip(f1);
    ParseIntRoundTrip(f2);
  }

  /** The entity name: the explicit suffix when truthy, else the parameter
      name with underscores as spaces in title case, else `Field <id>`. */
  function EntityName(nameSuffix: Option<string>, param: Option<AdapterParam>, fieldId: int): (n: string)
    ensures nameSuffix.Some? && nameSuffix.value != "" ==> n == nameSuffix.value
    ensures (nameSuffix.None? || nameSuffix.value == "") && (param.None? || param.value.name.None? || param.value.name.value == "") ==>
      n == "Field " + IntToString(fieldId)
  {
    if nameSuffix.Some? && nameSuffix.value != "" then nameSuffix.value
    else if param.Some? && param.value.name.Some? && param.value.name.value != "" then
      Title(ReplaceChar(param.value.name.value, '_', ' '))
    else "Field " + IntToString(fieldId)
  }

  /** A name taken from the parameter keeps its length and has no
      underscores left. */
  lemma ParamNameDisplay(param: AdapterParam, fieldId: int)
    requires param.name.Some? && param.name.value != ""
    ensures var n := EntityName(None, Some(param), fieldId);
      |n| == |param.name.value| && '_' !in n
  {
    var r := ReplaceChar(param.name.value, '_', ' ');
    var n := Title(r);
    forall i | 0 <= i < |n| ensures n[i] != '_' {
      assert r[i] != '_';
    }
  }
}
