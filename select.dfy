/** The select platform (`select.py`): which parameters become selects, and
    the two label tables a select builds from its parameter's `labels`. */
module SelectPlatform {
  import opened Wrappers
  import opened Dicts
  import opened JsonValues
  import opened Models
  import opened Platforms
  import Constants

  /** The selection rule: a writable dropdown with labels, not a service
      field. */
  predicate IsSelect(p: AdapterParam)
  {
    p.address <= Constants.MaxFieldId && GetOr(p.viewParams, "type", JStr("")) == JStr("dropdown") &&
    p.labels != [] && IsWritable(p)
  }

  /** The selects of one device; the platform has no format fallback. */
  function DeviceSelects(device: DeviceDescription, adapter: Option<DeviceAdapter>): seq<EntityRef>
  {
    DeviceEntities(device, adapter, None, (a: DeviceAdapter, p: AdapterParam) => IsSelect(p),
                   (e: (int, FieldFormat)) => false, false)
  }

  /** A device has a select for field `f` exactly when its adapter has a
      parameter at address `f` that passes the rule. */
  lemma DeviceSelectsSpec(device: DeviceDescription, adapter: Option<DeviceAdapter>, r: EntityRef)
    ensures r in DeviceSelects(device, adapter) <==>
      r.deviceId == device.id && adapter.Some? &&
      exists j :: 0 <= j < |adapter.value.params| && IsSelect(adapter.value.params[j]) && adapter.value.params[j].address == r.fieldId
  {
    DeviceEntitiesSpec(device, adapter, None, (a: DeviceAdapter, p: AdapterParam) => IsSelect(p),
                       (e: (int, FieldFormat)) => false, false, r);
  }

  // ------------------------------------------------------------ label tables

  /** `_label_to_value`: each label mapped to its value. */
  function LabelToValue(labels: Dict<string, Json>): Dict<string, Json>
  {
    PutFold(labels, (e: (string, Json)) => e.0, (e: (string, Json)) => e.1)
  }

  /** `d[k] = v` on a dict keyed by values: keys that are equal by Python's
      `==` (as `1`, `1.0` and `True` are) are one key, which keeps its first
      spelling. */
  function PyPut(d: Dict<Json, string>, k: Json, v: string): Dict<Json, string>
  {
    if d == [] then [(k, v)]
    else if PyEq(d[0].0, k) then [(d[0].0, v)] + d[1..]
    else [d[0]] + PyPut(d[1..], k, v)
  }

  /** `d.get(k)` on a dict keyed by values. */
  function PyGet(d: Dict<Json, string>, k: Json): Option<string>
  {
    if d == [] then None
    else if PyEq(d[0].0, k) then Some(d[0].1)
    else PyGet(d[1..], k)
  }

  lemma {:induction false} PyGetPut(d: Dict<Json, string>, k: Json, v: string, q: Json)
    ensures PyGet(PyPut(d, k, v), q) == if PyEq(k, q) then Some(v) else PyGet(d, q)
  {
    if d != [] {
      PyEqIsEquivalence(d[0].0, k, q);
      PyEqIsEquivalence(k, d[0].0, q);
      PyEqIsEquivalence(d[0].0, q, k);
      if !PyEq(d[0].0, k) {
        PyGetPut(d[1..], k, v, q);
        assert PyPut(d, k, v)[1..] == PyPut(d[1..], k, v);
      } else {
        assert PyPut(d, k, v)[1..] == d[1..];
      }
    }
  }

  /** `_value_to_label`: each value mapped to its label. */
  function ValueToLabel(labels: Dict<string, Json>): Dict<Json, string>
  {
    if labels == [] then []
    else PyPut(ValueToLabel(labels[..|labels| - 1]), labels[|labels| - 1].1, labels[|labels| - 1].0)
  }

  /** `i` is the last label whose value equals `v`. */
  predicate LastWithValue(labels: Dict<string, Json>, v: Json, i: int)
  {
    0 <= i < |labels| && PyEq(labels[i].1, v) && forall j :: i < j < |labels| ==> !PyEq(labels[j].1, v)
  }

  /** `i` is the last entry for label `k`. */
  predicate LastWithKey(labels: Dict<string, Json>, k: string, i: int)
  {
    0 <= i < |labels| && labels[i].0 == k && forall j :: i < j < |labels| ==> labels[j].0 != k
  }

  /** A value finds the label declared last for it: later labels overwrite
      earlier ones with an equal value. */
  lemma {:induction false} ValueToLabelGet(labels: Dict<string, Json>, v: Json)
    ensures PyGet(ValueToLabel(labels), v).None? <==> forall i :: 0 <= i < |labels| ==> !PyEq(labels[i].1, v)
    ensures PyGet(ValueToLabel(labels), v).Some? ==>
      exists i :: LastWithValue(labels, v, i) && PyGet(ValueToLabel(labels), v) == Some(labels[i].0)
  {
    if labels != [] {
      var init := labels[..|labels| - 1];
      var last := labels[|labels| - 1];
      ValueToLabelGet(init, v);
      PyGetPut(ValueToLabel(init), last.1, last.0, v);
      if PyEq(last.1, v) {
        assert LastWithValue(labels, v, |labels| - 1);
      } else {
        if PyGet(ValueToLabel(init), v).Some? {
          var i :| LastWithValue(init, v, i) && PyGet(ValueToLabel(init), v) == Some(init[i].0);
          assert init[i] == labels[i];
          forall j | i < j < |labels| ensures !PyEq(labels[j].1, v) {
            if j < |init| { assert init[j] == labels[j]; }
          }
          assert LastWithValue(labels, v, i);
        }
        if forall i :: 0 <= i < |init| ==> !PyEq(init[i].1, v) {
          forall i | 0 <= i < |labels| ensures !PyEq(labels[i].1, v) {
            if i < |init| { assert init[i] == labels[i]; }
          }
        } else {
          var i :| 0 <= i < |init| && PyEq(init[i].1, v);
          assert labels[i] == init[i];
        }
      }
    }
  }

  /** A label finds the value declared last for it. */
  lemma {:induction false} LabelToValueGet(labels: Dict<string, Json>, k: string)
    ensures Get(LabelToValue(labels), k).None? <==> forall i :: 0 <= i < |labels| ==> labels[i].0 != k
    ensures Get(LabelToValue(labels), k).Some? ==>
      exists i :: LastWithKey(labels, k, i) && Get(LabelToValue(labels), k) == Some(labels[i].1)
  {
    if labels != [] {
      var init := labels[..|labels| - 1];
      var last := labels[|labels| - 1];
      LabelToValueGet(init, k);
      assert LabelToValue(labels) == Put(LabelToValue(init), last.0, last.1);
      GetPut(LabelToValue(init), last.0, last.1, k);
      if last.0 == k {
        assert LastWithKey(labels, k, |labels| - 1);
      } else {
        if Get(LabelToValue(init), k).Some? {
          var i :| LastWithKey(init, k, i) && Get(LabelToValue(init), k) == Some(init[i].1);
          assert init[i] == labels[i];
          forall j | i < j < |labels| ensures labels[j].0 != k {
            if j < |init| { assert init[j] == labels[j]; }
          }
          assert LastWithKey(labels, k, i);
        }
        if forall i :: 0 <= i < |init| ==> init[i].0 != k {
          forall i | 0 <= i < |labels| ensures labels[i].0 != k {
            if i < |init| { assert init[i] == labels[i]; }
          }
        } else {
          var i :| 0 <= i < |init| && init[i].0 == k;
          assert labels[i] == init[i];
        }
      }
    }
  }

  /** With distinct labels the label table is the labels themselves, so the
      options are the labels in declaration order. */
  lemma {:induction false} DistinctLabelsKept(labels: Dict<string, Json>)
    requires DistinctKeys(labels)
    ensures LabelToValue(labels) == labels
    ensures Keys(LabelToValue(labels)) == Keys(labels)
  {
    if labels != [] {
      var init := labels[..|labels| - 1];
      var last := labels[|labels| - 1];
      DistinctLabelsKept(init);
      KeySetIndex(init, last.0);
      PutAbsent(init, last.0, last.1);
      assert LabelToValue(labels) == Put(LabelToValue(init), last.0, last.1);
      assert init + [last] == labels;
    }
  }

  /** With distinct labels and pairwise unequal values, label to value to
      label gets back where it started. */
  lemma LabelRoundTrip(labels: Dict<string, Json>, i: int)
    requires DistinctKeys(labels)
    requires forall a, b :: 0 <= a < b < |labels| ==> !PyEq(labels[a].1, labels[b].1)
    requires 0 <= i < |labels|
    ensures Get(LabelToValue(labels), labels[i].0) == Some(labels[i].1)
    ensures PyGet(ValueToLabel(labels), labels[i].1) == Some(labels[i].0)
  {
    LabelToValueGet(labels, labels[i].0);
    var k :| LastWithKey(labels, labels[i].0, k) && Get(LabelToValue(labels), labels[i].0) == Some(labels[k].1);
    assert k == i;
    ValueToLabelGet(labels, labels[i].1);
    PyEqIsEquivalence(labels[i].1, labels[i].1, labels[i].1);
    var m :| LastWithValue(labels, labels[i].1, m) && PyGet(ValueToLabel(labels), labels[i].1) == Some(labels[m].0);
    PyEqIsEquivalence(labels[m].1, labels[i].1, labels[i].1);
    assert m == i;
  }

  /** Colliding values keep the later label. */
  lemma CollidingValues()
    ensures PyGet(ValueToLabel([("off", JInt(0)), ("low", JInt(1)), ("on", JBool(true))]), JInt(1)) == Some("on")
    ensures PyGet(ValueToLabel([("off", JInt(0)), ("low", JInt(1)), ("on", JBool(true))]), JFloat(0.0)) == Some("off")
  {
    var labels := [("off", JInt(0)), ("low", JInt(1)), ("on", JBool(true))];
    ValueToLabelGet(labels, JInt(1));
    ValueToLabelGet(labels, JFloat(0.0));
    assert LastWithValue(labels, JInt(1), 2);
    assert LastWithValue(labels, JFloat(0.0), 0);
  }

  // ------------------------------------------------------------ the entity

  /** `PushokHubSelect`. */
  class Select {
    const deviceId: string
    const fieldId: int
    /** `self._adapter_param.labels`, empty without a parameter. */
    const labels: Dict<string, Json>
    var labelToValue: Dict<string, Json>
    var valueToLabel: Dict<Json, string>
    /** `_attr_options`. */
    var options: seq<string>

    predicate Valid()
      reads this
    {
      labelToValue == LabelToValue(labels) && valueToLabel == ValueToLabel(labels) && options == Keys(labelToValue)
    }

    /** `__init__`: the tables are filled from the parameter's labels in one
        loop; without a parameter they stay empty. */
    constructor (deviceId: string, fieldId: int, param: Option<AdapterParam>)
      ensures this.deviceId == deviceId && this.fieldId == fieldId
      ensures labels == if param.Some? then param.value.labels else []
      ensures Valid()
    {
      this.deviceId := deviceId;
      this.fieldId := fieldId;
      var ls := if param.Some? then param.value.labels else [];
      this.labels := ls;
      var ltv: Dict<string, Json> := [];
      var vtl: Dict<Json, string> := [];
      var i := 0;
      while i < |ls|
        invariant 0 <= i <= |ls|
        invariant ltv == LabelToValue(ls[..i]) && vtl == ValueToLabel(ls[..i])
      {
        assert ls[..i + 1][..i] == ls[..i];
        assert ls[..i + 1][i] == ls[i];
        ltv := Put(ltv, ls[i].0, ls[i].1);
        vtl := PyPut(vtl, ls[i].1, ls[i].0);
        i := i + 1;
      }
      assert ls[..|ls|] == ls;
      labelToValue := ltv;
      valueToLabel := vtl;
      options := Keys(ltv);
    }

    /** `current_option` of the raw state value: `None` for `None` or for a
        value no label has, else the label declared last for it. */
    function CurrentOption(raw: Json): (o: Option<string>)
      reads this
      requires Valid()
      ensures raw == JNull ==> o.None?
      ensures raw != JNull ==> (o.None? <==> forall i :: 0 <= i < |labels| ==> !PyEq(labels[i].1, raw))
      ensures o.Some? ==> exists i :: LastWithValue(labels, raw, i) && o.value == labels[i].0
    {
      ValueToLabelGet(labels, raw);
      if raw == JNull then None else PyGet(valueToLabel, raw)
    }

    /** `async_select_option`: the write of the option's raw value, unchanged;
        nothing for an unknown option or a `None` value. */
    function SelectOption(option: string): (w: Option<Write>)
      reads this
      requires Valid()
      ensures (forall i :: 0 <= i < |labels| ==> labels[i].0 != option) ==> w.None?
      ensures w.Some? <==> exists i :: LastWithKey(labels, option, i) && labels[i].1 != JNull
      ensures w.Some? ==> exists i :: LastWithKey(labels, option, i) && w.value == Write(deviceId, fieldId, labels[i].1)
    {
      LabelToValueGet(labels, option);
      var v := Get(labelToValue, option);
      if v.Some? && v.value != JNull then Some(Write(deviceId, fieldId, v.value)) else None
    }
  }
}
