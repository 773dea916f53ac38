/** The typed parameter table of system/config.c: 20 entries, each a key, a type, a
    value and a validation range, looked up by key (the first entry with that key wins)
    and reset from the defaults of secret.c. */
module Config {

  import opened CLib

  const MAX_PARAMS: int := 20
  /** `sizeof(value.string_value)`. */
  const STRING_SIZE: int := 64

  /** `param_type_t`; `OtherType` stands for any other number stored in the field. */
  datatype ParamType = IntType | FloatType | StringType | OtherType(code: int)

  /** An IEEE single, kept as its bit pattern: the model does no float arithmetic. */
  datatype Float = Float(bits: bv32)

  /** The `value` union, seen through the member the entry's type selects. */
  datatype Value = IntValue(i: int) | FloatValue(f: Float) | StringValue(s: string)

  /** The `validation` union. `{0}` zero-fills its first member, `int_range`. */
  datatype Validation = IntRange(min: int, max: int) | FloatRange(fmin: Float, fmax: Float)

  /** `config_param_t`. */
  datatype Param = Param(key: int, ptype: ParamType, value: Value, validation: Validation)

  /** An all-zero entry: key 0, type INT (0), value 0, range {0, 0}. */
  const ZERO_PARAM: Param := Param(0, IntType, IntValue(0), IntRange(0, 0))

  /** The value an entry of type `t` may hold: the union member `t` selects, and for a
      string a NUL-terminated text that fits the 64-byte array. */
  predicate ValueFits(t: ParamType, v: Value) {
    match t
    case IntType => v.IntValue? && INT_MIN <= v.i <= INT_MAX
    case FloatType => v.FloatValue?
    case StringType => v.StringValue? && |v.s| < STRING_SIZE && '\0' !in v.s
    case OtherType(_) => true
  }

  /** What the `void *value` given to `set_param` must point to for `type`: an `int`, a
      `float`, or any NUL-terminated text (it is truncated when copied). */
  predicate PointsTo(t: ParamType, v: Value) {
    match t
    case IntType => v.IntValue? && INT_MIN <= v.i <= INT_MAX
    case FloatType => v.FloatValue?
    case StringType => v.StringValue?
    case OtherType(_) => true
  }

  predicate WellTyped(p: Param) {
    ValueFits(p.ptype, p.value)
    && (p.ptype == IntType ==> p.validation.IntRange?)
    && (p.ptype == FloatType ==> p.validation.FloatRange?)
  }

  /** `validate_param`. Float comparison is IEEE arithmetic outside this model; the
      caller supplies it as `floatLe`. */
  function ValidateParam(p: Param, floatLe: (Float, Float) -> bool): (ok: bool)
    ensures WellTyped(p) && p.ptype == IntType ==>
      (ok <==> p.validation.min <= p.value.i <= p.validation.max)
    ensures WellTyped(p) && p.ptype == FloatType ==>
      (ok <==> floatLe(p.validation.fmin, p.value.f) && floatLe(p.value.f, p.validation.fmax))
    ensures p.ptype == StringType && p.value.StringValue? ==>
      (ok <==> 0 < |CStr(p.value.s)| < STRING_SIZE)
    ensures p.ptype.OtherType? ==> !ok
  {
    match p.ptype
    case IntType =>
      (match (p.value, p.validation)
       case (IntValue(v), IntRange(lo, hi)) => v >= lo && v <= hi
       case _ => false)
    case FloatType =>
      (match (p.value, p.validation)
       case (FloatValue(v), FloatRange(lo, hi)) => floatLe(lo, v) && floatLe(v, hi)
       case _ => false)
    case StringType =>
      (match p.value
       case StringValue(s) => |CStr(s)| > 0 && |CStr(s)| < STRING_SIZE
       case _ => false)
    case OtherType(_) => false
  }

  /** The index of the first entry of `ps` whose key is `key`, or -1. */
  function FirstKey(ps: seq<Param>, key: int, from: nat := 0): (i: int)
    requires from <= |ps|
    ensures -1 <= i < |ps|
    ensures i >= 0 ==> from <= i && ps[i].key == key
                       && forall j :: from <= j < i ==> ps[j].key != key
    ensures i == -1 ==> forall j :: from <= j < |ps| ==> ps[j].key != key
    decreases |ps| - from
  {
    if from == |ps| then -1
    else if ps[from].key == key then from
    else FirstKey(ps, key, from + 1)
  }

  /** The value `set_param` would store: a string is copied into the 64-byte array,
      truncated to 63 characters. */
  function Stored(v: Value): (r: Value)
    ensures v.StringValue? ==> r == StringValue(BoundedCopy(v.s, STRING_SIZE))
    ensures !v.StringValue? ==> r == v
  {
    match v
    case StringValue(s) => StringValue(BoundedCopy(s, STRING_SIZE))
    case _ => v
  }

  /** The defaults of secret.c; the slots it does not list are zero. */
  function DefaultParams(): (ps: seq<Param>)
    ensures |ps| == MAX_PARAMS
  {
    [ Param(1, IntType, IntValue(42), IntRange(0, 100)),
      Param(2, StringType, StringValue("marrow"), IntRange(0, 0)),
      // 3.14f within [0.0f, 60.0f]
      Param(3, FloatType, FloatValue(Float(0x4048_F5C3)), FloatRange(Float(0), Float(0x4270_0000))),
      // -3.14f within [-100.0f, 100.0f]
      Param(4, FloatType, FloatValue(Float(0xC048_F5C3)),
            FloatRange(Float(0xC2C8_0000), Float(0x42C8_0000))),
      Param(5, StringType, StringValue("default"), IntRange(0, 0)) ]
    + seq(MAX_PARAMS - 5, _ => ZERO_PARAM)
  }

  /** Every default entry is well typed; keys 1 to 5 sit in slots 0 to 4 and are found
      there; every other slot is the zero entry, so key 0 finds slot 5. */
  lemma DefaultsShape()
    ensures forall i :: 0 <= i < MAX_PARAMS ==> WellTyped(DefaultParams()[i])
    ensures forall k :: 1 <= k <= 5 ==> FirstKey(DefaultParams(), k) == k - 1
    ensures forall i :: 5 <= i < MAX_PARAMS ==> DefaultParams()[i] == ZERO_PARAM
    ensures FirstKey(DefaultParams(), 0) == 5
  {
    var ps := DefaultParams();
    assert ps[0].key == 1 && ps[1].key == 2 && ps[2].key == 3 && ps[3].key == 4 && ps[4].key == 5;
    assert ps[5] == ZERO_PARAM;
  }

  /** The default integer 42 of key 1 lies in its range, and both default strings are
      valid, whatever the float comparison. */
  lemma DefaultsValid(floatLe: (Float, Float) -> bool)
    ensures ValidateParam(DefaultParams()[0], floatLe)
    ensures ValidateParam(DefaultParams()[1], floatLe) && ValidateParam(DefaultParams()[4], floatLe)
  {
    var ps := DefaultParams();
    assert ps[0] == Param(1, IntType, IntValue(42), IntRange(0, 100));
    PlainStringValid(ps[1], floatLe);
    PlainStringValid(ps[4], floatLe);
  }

  /** A string entry holding a non-empty text without NUL that fits is valid. */
  lemma PlainStringValid(p: Param, floatLe: (Float, Float) -> bool)
    requires p.ptype == StringType && p.value.StringValue?
    requires 0 < |p.value.s| < STRING_SIZE && '\0' !in p.value.s
    ensures ValidateParam(p, floatLe)
  {
    CStrOfPlain(p.value.s);
  }

  /** What `set_param` does to a table `ps`. Only the first entry with the key is
      considered: -1 when there is none, or its type differs from `ptype`, or the type
      is not one of the three; -2 when the entry with the new value fails validation; 0
      when the new value is stored, in that entry only. */
  function SetSpec(ps: seq<Param>, key: int, ptype: ParamType, value: Value,
                   floatLe: (Float, Float) -> bool): (res: (int, seq<Param>))
    ensures |res.1| == |ps|
  {
    var i := FirstKey(ps, key);
    if i == -1 || ps[i].ptype != ptype || ptype.OtherType? then (-1, ps)
    else
      var candidate := ps[i].(value := Stored(value));
      if ValidateParam(candidate, floatLe) then (0, ps[i := candidate]) else (-2, ps)
  }

  /** The three result codes of `set_param` and when each one occurs; any failure leaves
      the table as it was, and a success changes the value of the first entry with the
      key and nothing else. */
  lemma SetSpecCases(ps: seq<Param>, key: int, ptype: ParamType, value: Value,
                     floatLe: (Float, Float) -> bool)
    ensures var (r, ps') := SetSpec(ps, key, ptype, value, floatLe);
      var i := FirstKey(ps, key);
      var applicable := i >= 0 && ps[i].ptype == ptype && !ptype.OtherType?;
      (r == -1 <==> !applicable)
      && (r == -2 <==> applicable && !ValidateParam(ps[i].(value := Stored(value)), floatLe))
      && (r == 0 <==> applicable && ValidateParam(ps[i].(value := Stored(value)), floatLe))
      && (r != 0 ==> ps' == ps)
      && (r == 0 ==> forall j :: 0 <= j < |ps| && j != i ==> ps'[j] == ps[j])
      && (r == 0 ==> ps'[i] == ps[i].(value := Stored(value)))
  {
  }

  /** An integer is stored exactly when the first entry with the key is an integer entry
      and the value lies within its range, bounds included. */
  lemma SetIntInRange(ps: seq<Param>, key: int, v: int, floatLe: (Float, Float) -> bool)
    requires forall j :: 0 <= j < |ps| ==> WellTyped(ps[j])
    requires FirstKey(ps, key) >= 0 && ps[FirstKey(ps, key)].ptype == IntType
    ensures var p := ps[FirstKey(ps, key)];
      p.validation.IntRange?
      && (SetSpec(ps, key, IntType, IntValue(v), floatLe).0 == 0 <==> p.validation.min <= v <= p.validation.max)
  {
    var i := FirstKey(ps, key);
    assert WellTyped(ps[i]);
  }

  /** A string is stored truncated to 63 characters, and an empty string is refused with
      -2 as soon as the key names a string entry. */
  lemma SetString(ps: seq<Param>, key: int, s: string, floatLe: (Float, Float) -> bool)
    requires FirstKey(ps, key) >= 0 && ps[FirstKey(ps, key)].ptype == StringType
    ensures var (r, ps') := SetSpec(ps, key, StringType, StringValue(s), floatLe);
      var i := FirstKey(ps, key);
      (r == 0 <==> CStr(s) != [])
      && (r == -2 <==> CStr(s) == [])
      && (r == -2 ==> ps' == ps)
      && (r == 0 ==> ps'[i].value == StringValue(BoundedCopy(s, STRING_SIZE))
                     && |ps'[i].value.s| <= STRING_SIZE - 1)
  {
    var i := FirstKey(ps, key);
    var stored := BoundedCopy(s, STRING_SIZE);
    assert CStr(stored) == stored;
    assert stored == [] <==> CStr(s) == [];
  }

  /** After a successful `set_param`, `get_param` with the same key finds the same slot,
      now holding the stored value. */
  lemma SetThenGet(ps: seq<Param>, key: int, ptype: ParamType, value: Value,
                   floatLe: (Float, Float) -> bool)
    requires SetSpec(ps, key, ptype, value, floatLe).0 == 0
    ensures var ps' := SetSpec(ps, key, ptype, value, floatLe).1;
      FirstKey(ps', key) == FirstKey(ps, key) && ps'[FirstKey(ps', key)].value == Stored(value)
  {
    var i := FirstKey(ps, key);
    var ps' := SetSpec(ps, key, ptype, value, floatLe).1;
    assert ps'[i].key == key;
    assert forall j :: 0 <= j < i ==> ps'[j] == ps[j];
  }

  /** `set_param` keeps every entry well typed. */
  lemma SetKeepsWellTyped(ps: seq<Param>, key: int, ptype: ParamType, value: Value,
                          floatLe: (Float, Float) -> bool)
    requires forall j :: 0 <= j < |ps| ==> WellTyped(ps[j])
    requires PointsTo(ptype, value)
    ensures var ps' := SetSpec(ps, key, ptype, value, floatLe).1;
      forall j :: 0 <= j < |ps'| ==> WellTyped(ps'[j])
  {
    var i := FirstKey(ps, key);
    if i >= 0 && ps[i].ptype == ptype && ptype.StringType? {
      var stored := BoundedCopy(value.s, STRING_SIZE);
      assert ValueFits(StringType, StringValue(stored));
    }
  }

  /** The global `params` array. */
  class ParamTable {
    var params: array<Param>

    ghost predicate Valid()
      reads this, params
    {
      params.Length == MAX_PARAMS && forall i :: 0 <= i < MAX_PARAMS ==> WellTyped(params[i])
    }

    /** The zero-initialised global, before `init_params`. */
    constructor ()
      ensures Valid() && fresh(params)
      ensures params[..] == seq(MAX_PARAMS, _ => ZERO_PARAM)
    {
      params := new Param[MAX_PARAMS](_ => ZERO_PARAM);
    }

    /** `init_params` and `reset_params_to_defaults`: the table becomes the defaults.
        A second call leaves it as the first one did. */
    method ResetToDefaults()
      requires Valid()
      modifies params
      ensures Valid()
      ensures params[..] == DefaultParams()
    {
      DefaultsShape();
      var defaults := DefaultParams();
      var i := 0;
      while i < MAX_PARAMS
        invariant 0 <= i <= MAX_PARAMS
        invariant params[..i] == defaults[..i]
        invariant forall j :: i <= j < MAX_PARAMS ==> params[j] == old(params[j])
      {
        params[i] := defaults[i];
        i := i + 1;
      }
      assert params[..] == params[..MAX_PARAMS];
    }

    /** `set_param(key, type, value)`: the result code and new table `SetSpec` gives. */
    method SetParam(key: int, ptype: ParamType, value: Value, floatLe: (Float, Float) -> bool)
      returns (r: int)
      requires Valid() && PointsTo(ptype, value)
      modifies params
      ensures Valid()
      ensures (r, params[..]) == SetSpec(old(params[..]), key, ptype, value, floatLe)
    {
      var i := 0;
      while i < MAX_PARAMS
        invariant 0 <= i <= MAX_PARAMS
        invariant forall j :: 0 <= j < i ==> params[j].key != key
        invariant params[..] == old(params[..])
      {
        if params[i].key == key {
          assert FirstKey(params[..], key) == i;
          SetKeepsWellTyped(params[..], key, ptype, value, floatLe);
          if params[i].ptype != ptype {
            return -1;
          }
          var temp := params[i];
          match ptype {
            case IntType =>
              temp := temp.(value := value);
              if !ValidateParam(temp, floatLe) {
                return -2;
              }
              params[i] := params[i].(value := value);
            case FloatType =>
              temp := temp.(value := value);
              if !ValidateParam(temp, floatLe) {
                return -2;
              }
              params[i] := params[i].(value := value);
            case StringType =>
              var copied := BoundedCopy(value.s, STRING_SIZE);
              temp := temp.(value := StringValue(copied));
              if !ValidateParam(temp, floatLe) {
                return -2;
              }
              params[i] := params[i].(value := StringValue(copied));
            case OtherType(_) =>
              return -1;
          }
          return 0;
        }
        i := i + 1;
      }
      assert FirstKey(params[..], key) == -1;
      return -1;
    }

    /** `get_param`: a copy of the first entry with the key (result 0), or `None` (result
        -1) when no entry has it. The table is only read. */
    method GetParam(key: int) returns (r: Option<Param>)
      requires Valid()
      ensures var i := FirstKey(params[..], key);
        (r.None? <==> i == -1) && (r.Some? ==> r.value == params[i])
      ensures r.None? <==> forall j :: 0 <= j < MAX_PARAMS ==> params[j].key != key
      ensures r.Some? ==> r.value.key == key && WellTyped(r.value)
    {
      var i := 0;
      while i < MAX_PARAMS
        invariant 0 <= i <= MAX_PARAMS
        invariant forall j :: 0 <= j < i ==> params[j].key != key
      {
        if params[i].key == key {
          assert FirstKey(params[..], key) == i;
          return Some(params[i]);
        }
        i := i + 1;
      }
      assert FirstKey(params[..], key) == -1;
      return None;
    }
  }
}
