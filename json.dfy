/** A decoded JSON value as Python's json module hands it to the client,
    and the three Python operations the client applies to such values:
    truth testing, int() and dict.get(). */
module Json {
  import opened Wrappers
  import opened Text

  /** null, a boolean, an integer, a float, a string, a list or an object
      (a Python dict keyed by strings). */
  datatype Json =
    | JNull
    | JBool(b: bool)
    | JInt(i: int)
    | JReal(r: real)
    | JStr(s: string)
    | JList(items: seq<Json>)
    | JObj(fields: map<string, Json>)

  /** Python's bool(v): None, False, zero and empty containers are false. */
  predicate Truthy(v: Json) {
    match v
    case JNull => false
    case JBool(b) => b
    case JInt(i) => i != 0
    case JReal(r) => r != 0.0
    case JStr(s) => s != []
    case JList(items) => items != []
    case JObj(fields) => fields != map[]
  }

  /** int(x) for a float x: the integer part, rounded toward zero. */
  function Truncate(x: real): (n: int)
    ensures 0.0 <= x ==> 0 <= n && n as real <= x < n as real + 1.0
    ensures x < 0.0 ==> n <= 0 && n as real - 1.0 < x <= n as real
  {
    if x >= 0.0 then x.Floor else -((-x).Floor)
  }

  /** Python's int(v). None stands for the TypeError (null, list, object)
      or ValueError (a string that is not an integer) that int() raises. */
  function ToInt(v: Json): (r: Option<int>)
    ensures r.Some? <==> v.JInt? || v.JBool? || v.JReal? || (v.JStr? && ParseInt(v.s).Some?)
    ensures v.JStr? ==> r == ParseInt(v.s)
  {
    match v
    case JInt(i) => Some(i)
    case JBool(b) => Some(if b then 1 else 0)
    case JReal(x) => Some(Truncate(x))
    case JStr(s) => ParseInt(s)
    case _ => None
  }

  /** An integer sent as a JSON number or as its decimal text converts back
      to itself. */
  lemma ToIntOfNumberOrText(n: int)
    ensures ToInt(JInt(n)) == Some(n)
    ensures ToInt(JStr(IntToString(n))) == Some(n)
    ensures ToInt(JReal(n as real)) == Some(n)
  {
    ParseIntToString(n);
    assert Truncate(n as real) == n;
  }

  /** The values Python treats as false: None, False, 0, 0.0, "", [] and
      {}; every other value is true. */
  lemma FalsyValues(v: Json)
    ensures !Truthy(v) <==>
      v == JNull || v == JBool(false) || v == JInt(0) || v == JReal(0.0)
      || v == JStr("") || v == JList([]) || v == JObj(map[])
  {
  }

  /** Python's d.get(key, default): the value under key, or default when
      the key is absent (None when no default is given). */
  function DictGet(fields: map<string, Json>, key: string, default: Json := JNull): Json
  {
    if key in fields then fields[key] else default
  }

  /** d.get after storing a value: the stored value under its own key, the
      old lookup under any other; on an empty dict, the default. */
  lemma DictGetStore(fields: map<string, Json>, key: string, v: Json, other: string, default: Json)
    ensures DictGet(fields[key := v], key, default) == v
    ensures other != key ==> DictGet(fields[key := v], other, default) == DictGet(fields, other, default)
    ensures DictGet(map[], key, default) == default
  {
  }
}
