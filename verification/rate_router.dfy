/**
 The endpoint rate-limit configuration of the router middlewares: the typed
 `{MaxRate, Strategy, ClientMaxRate, Key}` record read out of an endpoint's
 extra config. Unlike the juju proxy's getter it has no error channel: any
 problem yields the zero config or the zero value of the affected field.
 */
module RateRouter {
  import opened Dynamic

  /** The key under which an endpoint's extra config holds the router settings. */
  const Namespace: string := "github.com/devopsfaith/krakend-ratelimit/rate/router"

  /** Global and per-client rates (Go `int`), the client-key strategy and its key name. */
  datatype Config = Config(maxRate: int64, strategy: string, clientMaxRate: int64, key: string)

  /** The zero value of `Config`: every limit disabled, no strategy. */
  const ZeroCfg: Config := Config(0, "", 0, "")

  /** Both rate entries, when they are float64, convert to `int` without overflow. */
  predicate Convertible(e: ExtraConfig) {
    Namespace in e && e[Namespace].Obj? ==>
      FitsAt(e[Namespace].fields, "maxRate") && FitsAt(e[Namespace].fields, "clientMaxRate")
  }

  /** The kinds a rate entry is read from: `int` and `float64`, but not `int64`. */
  predicate IsRate(v: Value) {
    v.I? || v.F64?
  }

  /** The rate type switch: int as is, float64 truncated, anything else 0. */
  function RateOf(v: Value): int64
    requires v.F64? ==> MinInt64 <= Trunc(v.f) <= MaxInt64
  {
    match v
    case I(i) => i
    case F64(f) => Trunc(f)
    case _ => 0
  }

  /** The rate the entry at `k` denotes, truncated toward zero; 0 when missing or not a rate. */
  ghost function RateAt(m: map<string, Value>, k: string): int {
    if k in m && IsRate(m[k]) then Trunc(Number(m[k]).value) else 0
  }

  /**
   Parses the extra config; it never fails. A missing namespace, or one
   whose value is not an object, gives the zero config. Otherwise each rate
   is the number its entry denotes truncated toward zero, or 0 when the
   entry is missing or of another kind, and each string field is the `%v`
   rendering of its entry, or "" when it is missing.
   */
  function ConfigGetter(e: ExtraConfig, show: Value -> string): (r: Config)
    requires Convertible(e)
    ensures !(Namespace in e && e[Namespace].Obj?) ==> r == ZeroCfg
    ensures Namespace in e && e[Namespace].Obj? ==>
      var m := e[Namespace].fields;
      && r.maxRate == RateAt(m, "maxRate")
      && r.clientMaxRate == RateAt(m, "clientMaxRate")
      && r.strategy == (if "strategy" in m then Format(show, m["strategy"]) else "")
      && r.key == (if "key" in m then Format(show, m["key"]) else "")
  {
    if Namespace !in e then
      ZeroCfg
    else if !e[Namespace].Obj? then
      ZeroCfg
    else
      var m := e[Namespace].fields;
      var maxRate := if "maxRate" in m then RateOf(m["maxRate"]) else 0;
      var strategy := if "strategy" in m then Format(show, m["strategy"]) else "";
      var clientMaxRate := if "clientMaxRate" in m then RateOf(m["clientMaxRate"]) else 0;
      var key := if "key" in m then Format(show, m["key"]) else "";
      Config(maxRate, strategy, clientMaxRate, key)
  }

  /** An endpoint extra config holding `c` with the Go types the record declares. */
  function Encode(c: Config): (e: ExtraConfig)
    ensures Namespace in e && e[Namespace].Obj?
  {
    map[Namespace := Obj(map[
      "maxRate" := I(c.maxRate), "strategy" := Str(c.strategy),
      "clientMaxRate" := I(c.clientMaxRate), "key" := Str(c.key)])]
  }

  /** The same config as a JSON decoder delivers it: every number a float64. */
  function EncodeJson(c: Config): (e: ExtraConfig)
    ensures Namespace in e && e[Namespace].Obj?
  {
    map[Namespace := Obj(map[
      "maxRate" := F64(c.maxRate as real), "strategy" := Str(c.strategy),
      "clientMaxRate" := F64(c.clientMaxRate as real), "key" := Str(c.key)])]
  }

  /** Parsing what `Encode` produced gives back the config, whatever the formatter. */
  lemma EncodeRoundTrip(c: Config, show: Value -> string)
    ensures Convertible(Encode(c))
    ensures ConfigGetter(Encode(c), show) == c
  {
  }

  /** Parsing the JSON form gives back the config: integral float64 rates survive truncation. */
  lemma EncodeJsonRoundTrip(c: Config, show: Value -> string)
    ensures Convertible(EncodeJson(c))
    ensures ConfigGetter(EncodeJson(c), show) == c
  {
  }

  /** Every parse is a normal form: re-encoding and re-parsing changes nothing. */
  lemma ParseIsNormalForm(e: ExtraConfig, show: Value -> string)
    requires Convertible(e)
    ensures Convertible(Encode(ConfigGetter(e, show)))
    ensures ConfigGetter(Encode(ConfigGetter(e, show)), show) == ConfigGetter(e, show)
  {
  }

  /** Only the four known entries of the namespace block matter: two configs
      that agree on them parse alike, whatever else they hold. */
  lemma OnlyKnownKeysMatter(e1: ExtraConfig, e2: ExtraConfig, show: Value -> string)
    requires Convertible(e1) && Convertible(e2)
    requires Namespace in e1 && e1[Namespace].Obj?
    requires Namespace in e2 && e2[Namespace].Obj?
    requires forall k :: k in {"maxRate", "strategy", "clientMaxRate", "key"} ==>
      (k in e1[Namespace].fields <==> k in e2[Namespace].fields) &&
      (k in e1[Namespace].fields ==> e1[Namespace].fields[k] == e2[Namespace].fields[k])
    ensures ConfigGetter(e1, show) == ConfigGetter(e2, show)
  {
  }

  /** Setting the entry `k` of the namespace block, to any value at all, changes
      at most the one field that `k` names: fields are parsed independently. */
  lemma FieldsIndependent(e: ExtraConfig, k: string, v: Value, show: Value -> string)
    requires Namespace in e && e[Namespace].Obj?
    requires Convertible(e)
    requires Convertible(e[Namespace := Obj(e[Namespace].fields[k := v])])
    ensures var before := ConfigGetter(e, show);
      var after := ConfigGetter(e[Namespace := Obj(e[Namespace].fields[k := v])], show);
      && (k != "maxRate" ==> after.maxRate == before.maxRate)
      && (k != "strategy" ==> after.strategy == before.strategy)
      && (k != "clientMaxRate" ==> after.clientMaxRate == before.clientMaxRate)
      && (k != "key" ==> after.key == before.key)
  {
  }

  /** An `int64` rate is ignored, as is any other kind but `int` and `float64`. */
  lemma Int64RateIgnored(n: int64, show: Value -> string)
    ensures var e := map[Namespace := Obj(map["maxRate" := I64(n), "clientMaxRate" := I64(n)])];
      Convertible(e) && ConfigGetter(e, show) == ZeroCfg
  {
  }

  /** The field values of the package documentation's example, `{"maxRate": 2000,
      "strategy": "header", "clientMaxRate": 100, "key": "X-Private-Token"}`,
      as JSON decoding delivers them: numbers as float64. */
  lemma SampleConfig(show: Value -> string)
    ensures var e := map[Namespace := Obj(map[
        "maxRate" := F64(2000.0), "strategy" := Str("header"),
        "clientMaxRate" := F64(100.0), "key" := Str("X-Private-Token")])];
      Convertible(e) && ConfigGetter(e, show) == Config(2000, "header", 100, "X-Private-Token")
  {
  }

  /** The juju spelling `{"max_rate": 10, "capacity": 10}` means nothing here:
      the router reads camel-case keys only, so every field keeps its default. */
  lemma SnakeCaseKeysIgnored(show: Value -> string)
    ensures var e := map[Namespace := Obj(map["max_rate" := F64(10.0), "capacity" := F64(10.0)])];
      Convertible(e) && ConfigGetter(e, show) == ZeroCfg
  {
  }

  /** A malformed rate degrades to 0 without disturbing the other fields. */
  lemma MalformedRateSample(show: Value -> string)
    ensures var e := map[Namespace := Obj(map[
        "maxRate" := Str("fast"), "clientMaxRate" := F64(-7.9), "key" := Str("X-Id")])];
      Convertible(e) && ConfigGetter(e, show) == Config(0, "", -7, "X-Id")
  {
  }
}
