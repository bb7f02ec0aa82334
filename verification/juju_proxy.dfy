/**
 The backend rate-limit configuration of the juju proxy middleware: the
 typed `{MaxRate, Capacity}` record read out of a backend's extra config,
 and the two errors that tell "not configured" from "malformed".
 */
module JujuProxy {
  import opened Dynamic

  /** The key under which a backend's extra config holds this middleware's settings. */
  const Namespace: string := "github.com/devopsfaith/krakend-ratelimit/juju/proxy"

  /** Tokens per second and bucket capacity (Go: float64 and int64). */
  datatype Config = Config(maxRate: real, capacity: int64)

  /** The zero value of `Config`: limiting disabled. */
  const ZeroCfg: Config := Config(0.0, 0)

  datatype ConfigError = ErrNoExtraCfg | ErrWrongExtraCfg

  /** The pair `(Config, error)` the getter returns; `None` is Go's nil error. */
  datatype Parsed = Parsed(cfg: Config, err: Option<ConfigError>)

  /** The capacity entry, if it is a float64, converts to int64 without overflow. */
  predicate Convertible(e: ExtraConfig) {
    Namespace in e && e[Namespace].Obj? ==> FitsAt(e[Namespace].fields, "capacity")
  }

  /** The `max_rate` type switch: float64 as is, int and int64 converted, anything else 0. */
  function MaxRateOf(v: Value): real {
    match v
    case F64(f) => f
    case I(i) => i as real
    case I64(n) => n as real
    case _ => 0.0
  }

  /** The `capacity` type switch: int64 and int as is, float64 truncated, anything else 0. */
  function CapacityOf(v: Value): int64
    requires v.F64? ==> MinInt64 <= Trunc(v.f) <= MaxInt64
  {
    match v
    case I64(n) => n
    case I(i) => i
    case F64(f) => Trunc(f)
    case _ => 0
  }

  /**
   Parses the extra config. A missing namespace is "not configured", a
   namespace whose value is not a JSON object is "malformed"; otherwise
   parsing never fails: each of the two fields takes the number its entry
   denotes (capacity truncated toward zero) and defaults to zero when the
   entry is missing or of a non-numeric kind.
   */
  function ConfigGetter(e: ExtraConfig): (r: Parsed)
    requires Convertible(e)
    ensures r.err.None? <==> Namespace in e && e[Namespace].Obj?
    ensures Namespace !in e ==> r == Parsed(ZeroCfg, Some(ErrNoExtraCfg))
    ensures Namespace in e && !e[Namespace].Obj? ==> r == Parsed(ZeroCfg, Some(ErrWrongExtraCfg))
    ensures r.err.None? ==>
      var m := e[Namespace].fields;
      r.cfg.maxRate == (if "max_rate" in m && Number(m["max_rate"]).Some? then Number(m["max_rate"]).value else 0.0)
    ensures r.err.None? ==>
      var m := e[Namespace].fields;
      r.cfg.capacity == (if "capacity" in m && Number(m["capacity"]).Some? then Trunc(Number(m["capacity"]).value) else 0)
  {
    if Namespace !in e then
      Parsed(ZeroCfg, Some(ErrNoExtraCfg))
    else if !e[Namespace].Obj? then
      Parsed(ZeroCfg, Some(ErrWrongExtraCfg))
    else
      var m := e[Namespace].fields;
      var maxRate := if "max_rate" in m then MaxRateOf(m["max_rate"]) else 0.0;
      var capacity := if "capacity" in m then CapacityOf(m["capacity"]) else 0;
      Parsed(Config(maxRate, capacity), None)
  }

  /** A backend extra config holding `c` with the Go types the record declares. */
  function Encode(c: Config): (e: ExtraConfig)
    ensures Namespace in e && e[Namespace].Obj?
  {
    map[Namespace := Obj(map["max_rate" := F64(c.maxRate), "capacity" := I64(c.capacity)])]
  }

  /** The same config as a JSON decoder delivers it: every number a float64. */
  function EncodeJson(c: Config): (e: ExtraConfig)
    ensures Namespace in e && e[Namespace].Obj?
  {
    map[Namespace := Obj(map["max_rate" := F64(c.maxRate), "capacity" := F64(c.capacity as real)])]
  }

  /** Parsing what `Encode` produced gives back the config, with no error. */
  lemma EncodeRoundTrip(c: Config)
    ensures Convertible(Encode(c))
    ensures ConfigGetter(Encode(c)) == Parsed(c, None)
  {
  }

  /** Parsing the JSON form gives back the config: integral float64 capacities survive truncation. */
  lemma EncodeJsonRoundTrip(c: Config)
    ensures Convertible(EncodeJson(c))
    ensures ConfigGetter(EncodeJson(c)) == Parsed(c, None)
  {
  }

  /** A successful parse is a normal form: re-encoding and re-parsing changes nothing. */
  lemma ParseIsNormalForm(e: ExtraConfig)
    requires Convertible(e)
    requires ConfigGetter(e).err.None?
    ensures Convertible(Encode(ConfigGetter(e).cfg))
    ensures ConfigGetter(Encode(ConfigGetter(e).cfg)) == ConfigGetter(e)
  {
  }

  /** Only the `max_rate` and `capacity` entries of the namespace block matter:
      two configs that agree on them parse alike, whatever else they hold. */
  lemma OnlyKnownKeysMatter(e1: ExtraConfig, e2: ExtraConfig)
    requires Convertible(e1) && Convertible(e2)
    requires Namespace in e1 && e1[Namespace].Obj?
    requires Namespace in e2 && e2[Namespace].Obj?
    requires forall k :: k in {"max_rate", "capacity"} ==>
      (k in e1[Namespace].fields <==> k in e2[Namespace].fields) &&
      (k in e1[Namespace].fields ==> e1[Namespace].fields[k] == e2[Namespace].fields[k])
    ensures ConfigGetter(e1) == ConfigGetter(e2)
  {
  }

  /** Whatever `max_rate` holds, even a malformed value, the capacity is unchanged. */
  lemma MaxRateDoesNotAffectCapacity(e: ExtraConfig, v: Value)
    requires Convertible(e)
    requires Namespace in e && e[Namespace].Obj?
    ensures var e' := e[Namespace := Obj(e[Namespace].fields["max_rate" := v])];
      Convertible(e') && ConfigGetter(e').cfg.capacity == ConfigGetter(e).cfg.capacity
  {
  }

  /** Whatever `capacity` holds, even a malformed value, the rate is unchanged. */
  lemma CapacityDoesNotAffectMaxRate(e: ExtraConfig, v: Value)
    requires Namespace in e && e[Namespace].Obj?
    requires Convertible(e[Namespace := Obj(e[Namespace].fields["capacity" := v])])
    requires Convertible(e)
    ensures var e' := e[Namespace := Obj(e[Namespace].fields["capacity" := v])];
      ConfigGetter(e').cfg.maxRate == ConfigGetter(e).cfg.maxRate
  {
  }

  /** A non-numeric entry for either field reads as zero and is not an error. */
  lemma WrongFieldTypesDegrade(e: ExtraConfig)
    requires Convertible(e)
    requires Namespace in e && e[Namespace].Obj?
    requires "max_rate" in e[Namespace].fields && Number(e[Namespace].fields["max_rate"]).None?
    requires "capacity" in e[Namespace].fields && Number(e[Namespace].fields["capacity"]).None?
    ensures ConfigGetter(e) == Parsed(ZeroCfg, None)
  {
  }

  /** The field values of the package documentation's sample, `{"max_rate": 100,
      "capacity": 100}`, decoded from JSON and placed under `Namespace`. */
  lemma SampleConfig()
    ensures var e := map[Namespace := Obj(map["max_rate" := F64(100.0), "capacity" := F64(100.0)])];
      Convertible(e) && ConfigGetter(e) == Parsed(Config(100.0, 100), None)
  {
  }

  /** An `int` rate is converted exactly, a negative fractional float64 capacity is
      truncated toward zero, and an unknown key is ignored. */
  lemma MixedKindsSample()
    ensures var e := map[Namespace := Obj(map["max_rate" := I(3), "capacity" := F64(-2.75), "burst" := Str("x")])];
      Convertible(e) && ConfigGetter(e) == Parsed(Config(3.0, -2), None)
  {
  }
}
