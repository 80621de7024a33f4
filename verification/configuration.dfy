/** The key-value configuration the background tasks persist their state in.
    `values` is what the running process sees; `persisted` is what a restart
    would load. Setting and removing keys changes `values` only; `update()`
    writes `values` out. */
module Configuration {
  import opened Wrappers
  import JavaLong

  datatype Config = Config(values: map<string, string>, persisted: map<string, string>)

  /** One call a task makes on the configuration. */
  datatype Write =
    | Remove(key: string)
    | SetProperty(key: string, value: string)
    | Update

  /** Nothing set or removed is waiting to be written out. */
  predicate IsPersisted(c: Config) {
    c.values == c.persisted
  }

  function Apply(c: Config, w: Write): (r: Config)
    ensures w.Update? ==> IsPersisted(r)
    ensures !w.Update? ==> r.persisted == c.persisted
  {
    match w
    case Remove(k) => c.(values := c.values - {k})
    case SetProperty(k, v) => c.(values := c.values[k := v])
    case Update => c.(persisted := c.values)
  }

  function ApplyAll(c: Config, ws: seq<Write>): Config
    decreases |ws|
  {
    if |ws| == 0 then c else ApplyAll(Apply(c, ws[0]), ws[1..])
  }

  /** The configuration a restarted process starts from. */
  function Reload(c: Config): (r: Config)
    ensures IsPersisted(r) && r.values == c.persisted
  {
    Config(c.persisted, c.persisted)
  }

  /** `config.getProperty(key)`. */
  function GetProperty(c: Config, key: string): (r: Option<string>)
    ensures r.Some? <==> key in c.values
    ensures r.Some? ==> r.value == c.values[key]
  {
    if key in c.values then Some(c.values[key]) else None
  }

  /** `config.getLong(key)`: the stored text read as a `long`. */
  function GetLong(c: Config, key: string): (r: Option<JavaLong.Long>)
    ensures r.Some? ==> key in c.values && JavaLong.Parse(c.values[key]) == r
  {
    match GetProperty(c, key)
    case None => None
    case Some(text) => JavaLong.Parse(text)
  }

  lemma {:induction false} ApplyAllAppend(c: Config, a: seq<Write>, b: seq<Write>)
    ensures ApplyAll(c, a + b) == ApplyAll(ApplyAll(c, a), b)
    decreases |a|
  {
    if |a| > 0 {
      assert (a + b)[1..] == a[1..] + b;
      ApplyAllAppend(Apply(c, a[0]), a[1..], b);
    } else {
      assert a + b == b;
    }
  }

  /** A batch of calls that ends with `update()` leaves nothing unwritten. */
  lemma {:induction false} ApplyAllEndingInUpdate(c: Config, ws: seq<Write>)
    requires |ws| > 0 && ws[|ws| - 1] == Update
    ensures IsPersisted(ApplyAll(c, ws))
    decreases |ws|
  {
    if |ws| > 1 {
      ApplyAllEndingInUpdate(Apply(c, ws[0]), ws[1..]);
    }
  }
}
