/**
 * Validation of the settings dictionary handed to the TMonClient constructor.
 * The constructor rejects anything that is not a dict, then evaluates
 * `config and config["url"] and config["wsid"] and config["secret"]`
 * left to right: an empty dict or a falsy value raises InvalidSettings,
 * while an absent key makes the subscript itself raise KeyError.
 */
module Settings {
  import opened Wrappers
  import opened PyValues

  const URL_KEY: string := "url"
  const WSID_KEY: string := "wsid"
  const SECRET_KEY: string := "secret"

  /** The keys the constructor looks up, in evaluation order. */
  const CheckedKeys: seq<string> := [URL_KEY, WSID_KEY, SECRET_KEY]

  type Config = map<string, Value>

  /**
   * The constructor's argument: a dict (or a dict subclass that does not override
   * `__missing__`, `__getitem__`, `__len__` or `__nonzero__`), or any other
   * object with its type name.
   */
  datatype Settings = NotADict(typeName: string) | Dict(entries: Config)

  /** The exceptions the constructor can raise. */
  datatype InitError =
      /** `InvalidSettings(type(arg))` for a non-dict, bare `InvalidSettings()` otherwise. */
    | InvalidSettings(detail: Option<string>)
      /** The KeyError raised by `config[key]` for an absent key. */
    | KeyError(key: string)

  /** The subscript succeeds and its value is truthy. */
  predicate Passes(cfg: Config, key: string)
  {
    key in cfg && Truthy(cfg[key])
  }

  /** Where the short-circuit evaluation of `keys[from..]` first stops, if anywhere. */
  datatype KeyCheck = AllTruthy | AbsentAt(index: nat) | FalsyAt(index: nat)

  function FirstFailure(cfg: Config, keys: seq<string>, from: nat): (r: KeyCheck)
    requires from <= |keys|
    ensures r.AllTruthy? <==> forall j :: from <= j < |keys| ==> Passes(cfg, keys[j])
    ensures !r.AllTruthy? ==> from <= r.index < |keys|
    ensures !r.AllTruthy? ==> forall j :: from <= j < r.index ==> Passes(cfg, keys[j])
    ensures r.AbsentAt? ==> keys[r.index] !in cfg
    ensures r.FalsyAt? ==> keys[r.index] in cfg && !Truthy(cfg[keys[r.index]])
    decreases |keys| - from
  {
    if from == |keys| then AllTruthy
    else if keys[from] !in cfg then AbsentAt(from)
    else if !Truthy(cfg[keys[from]]) then FalsyAt(from)
    else FirstFailure(cfg, keys, from + 1)
  }

  /** The outcome of `TMonClient(settings)`: the stored config, or the exception raised. */
  function Validate(s: Settings): (r: Result<Config, InitError>)
    ensures s.NotADict? ==> r == Failure(InvalidSettings(Some(s.typeName)))
    ensures s.Dict? && s.entries == map[] ==> r == Failure(InvalidSettings(None))
    ensures s.Dict? && r.Failure? && r.error.InvalidSettings? ==> r.error.detail == None
    ensures r.Success? <==> s.Dict? && forall i :: 0 <= i < |CheckedKeys| ==> Passes(s.entries, CheckedKeys[i])
    ensures r.Success? ==> r.value == s.entries
    ensures r.Failure? && r.error.KeyError? ==>
              s.Dict? && s.entries != map[] &&
              exists i :: 0 <= i < |CheckedKeys| && CheckedKeys[i] == r.error.key && CheckedKeys[i] !in s.entries &&
                          forall j :: 0 <= j < i ==> Passes(s.entries, CheckedKeys[j])
    ensures s.Dict? && s.entries != map[] && r == Failure(InvalidSettings(None)) ==>
              exists i :: 0 <= i < |CheckedKeys| && CheckedKeys[i] in s.entries && !Truthy(s.entries[CheckedKeys[i]]) &&
                          forall j :: 0 <= j < i ==> Passes(s.entries, CheckedKeys[j])
  {
    match s
    case NotADict(t) => Failure(InvalidSettings(Some(t)))
    case Dict(cfg) =>
      if cfg == map[] then
        assert !Passes(cfg, CheckedKeys[0]);
        Failure(InvalidSettings(None))
      else
        match FirstFailure(cfg, CheckedKeys, 0)
        case AllTruthy => Success(cfg)
        case AbsentAt(i) => Failure(KeyError(CheckedKeys[i]))
        case FalsyAt(_) => Failure(InvalidSettings(None))
  }

  /** A config that a constructed client can hold: it has all three keys with truthy values. */
  predicate ValidConfig(cfg: Config)
    ensures ValidConfig(cfg) ==> Passes(cfg, URL_KEY) && Passes(cfg, WSID_KEY) && Passes(cfg, SECRET_KEY)
  {
    var ok := Validate(Dict(cfg)) == Success(cfg);
    assert ok ==> Passes(cfg, CheckedKeys[0]) && Passes(cfg, CheckedKeys[1]) && Passes(cfg, CheckedKeys[2]);
    ok
  }

  /** Agreement of two dicts on one key: both lack it, or both map it to the same value. */
  predicate AgreeOn(cfg: Config, other: Config, key: string)
  {
    (key in cfg <==> key in other) && (key in cfg ==> cfg[key] == other[key])
  }

  lemma {:induction false} FirstFailureLocal(cfg: Config, other: Config, keys: seq<string>, from: nat)
    requires from <= |keys|
    requires !FirstFailure(cfg, keys, from).AllTruthy?
    requires forall j :: from <= j <= FirstFailure(cfg, keys, from).index ==> AgreeOn(cfg, other, keys[j])
    ensures FirstFailure(other, keys, from) == FirstFailure(cfg, keys, from)
    decreases |keys| - from
  {
    assert AgreeOn(cfg, other, keys[from]);
    if keys[from] in cfg && Truthy(cfg[keys[from]]) {
      FirstFailureLocal(cfg, other, keys, from + 1);
    }
  }

  /**
   * Keys after the first one that fails are never looked at: any other
   * non-empty dict that agrees up to and including that key is rejected
   * with the same exception.
   */
  lemma LaterKeysNeverExamined(cfg: Config, other: Config, i: nat)
    requires cfg != map[] && other != map[]
    requires i < |CheckedKeys|
    requires forall j :: 0 <= j < i ==> Passes(cfg, CheckedKeys[j])
    requires !Passes(cfg, CheckedKeys[i])
    requires forall j :: 0 <= j <= i ==> AgreeOn(cfg, other, CheckedKeys[j])
    ensures Validate(Dict(other)) == Validate(Dict(cfg))
    ensures Validate(Dict(cfg)).Failure?
  {
    var r := FirstFailure(cfg, CheckedKeys, 0);
    assert !r.AllTruthy?;
    assert r.index == i;
    FirstFailureLocal(cfg, other, CheckedKeys, 0);
  }

  /** An absent "url" is reported as a KeyError even though the other keys are fine. */
  lemma AbsentUrlIsKeyError()
    ensures Validate(Dict(map[WSID_KEY := IntValue(1), SECRET_KEY := StrValue("s")])) == Failure(KeyError(URL_KEY))
  {
    var cfg := map[WSID_KEY := IntValue(1), SECRET_KEY := StrValue("s")];
    assert URL_KEY != WSID_KEY && URL_KEY != SECRET_KEY;
    assert WSID_KEY in cfg;
    assert FirstFailure(cfg, CheckedKeys, 0) == AbsentAt(0);
  }

  /** A falsy "url" is reported as InvalidSettings before the absent "wsid" is reached. */
  lemma FalsyUrlShadowsAbsentWsid()
    ensures Validate(Dict(map[URL_KEY := StrValue("")])) == Failure(InvalidSettings(None))
  {
    var cfg := map[URL_KEY := StrValue("")];
    assert FirstFailure(cfg, CheckedKeys, 0) == FalsyAt(0);
  }

  /**
   * Validation checks truthiness only: a web-service id such as "abc" is
   * accepted although `int()` later rejects it.
   */
  lemma ValidationAdmitsUnconvertibleWsid()
    ensures ValidConfig(map[URL_KEY := StrValue("http://t/"), WSID_KEY := StrValue("abc"), SECRET_KEY := StrValue("k")])
    ensures PyInt(StrValue("abc")) == None
  {
    var cfg := map[URL_KEY := StrValue("http://t/"), WSID_KEY := StrValue("abc"), SECRET_KEY := StrValue("k")];
    assert Passes(cfg, CheckedKeys[0]) && Passes(cfg, CheckedKeys[1]) && Passes(cfg, CheckedKeys[2]);
    var id := "abc";
    assert id[0] == 'a' && id[1] == 'b' && id[2] == 'c';
    assert forall i :: 0 <= i < |id| ==> !IsDigit(id[i]);
  }
}
