/**
 * The configuration read by `load_config` (src/bricks.cpp): powerup
 * durations, powerup spawn chances and the initial number of lives. The
 * token stream is replaced by entries already split into an option name and
 * its number; opening the file, printing the values and `exit` are not
 * modelled, and a rejected option is returned as an error.
 */
module Settings {
  import opened Entities

  datatype Config = Config(
    splitTime: real, glueTime: real, shooterTime: real,
    splitChance: real, glueChance: real, shooterChance: real,
    livesInit: int)

  /** The zero-initialised GameState of `main` holds all-zero settings. */
  const DEFAULT_CONFIG := Config(0.0, 0.0, 0.0, 0.0, 0.0, 0.0, 0)

  function Chance(c: Config, t: PowerupType): real {
    match t
    case Split => c.splitChance
    case Glue => c.glueChance
    case Shooter => c.shooterChance
  }

  function Duration(c: Config, t: PowerupType): real {
    match t
    case Split => c.splitTime
    case Glue => c.glueTime
    case Shooter => c.shooterTime
  }

  /**
   * A number as it appeared in the file: a whole number, or one written with
   * a fractional part.
   */
  datatype Number = Whole(n: int) | Fractional(r: real) {
    function AsReal(): real {
      match this
      case Whole(n) => n as real
      case Fractional(r) => r
    }
  }

  datatype Entry = Entry(option: string, value: Number)

  /**
   * `InvalidOption` is the source's "Invalid config option" exit. Reading
   * `lives_count` into an int stops at the decimal point, and the rest of the
   * number is then read as an option name that no branch accepts; the model
   * reports that case as `FractionalLives`, since the entry no longer holds
   * the text of that remainder.
   */
  datatype ConfigError = InvalidOption(option: string) | FractionalLives

  datatype Result = Ok(config: Config) | Err(error: ConfigError)

  const OPTIONS: set<string> :=
    {"split_time", "glue_time", "shooter_time", "split_chance", "glue_chance", "shooter_chance", "lives_count"}

  /** One option: sets exactly the field it names, or fails. */
  function ApplyEntry(c: Config, e: Entry): (r: Result)
    ensures r.Err? <==> e.option !in OPTIONS || (e.option == "lives_count" && e.value.Fractional?)
    ensures r.Err? && e.option !in OPTIONS ==> r.error == InvalidOption(e.option)
    ensures r.Ok? && e.option == "split_time" ==> r.config == c.(splitTime := e.value.AsReal())
    ensures r.Ok? && e.option == "glue_time" ==> r.config == c.(glueTime := e.value.AsReal())
    ensures r.Ok? && e.option == "shooter_time" ==> r.config == c.(shooterTime := e.value.AsReal())
    ensures r.Ok? && e.option == "split_chance" ==> r.config == c.(splitChance := e.value.AsReal())
    ensures r.Ok? && e.option == "glue_chance" ==> r.config == c.(glueChance := e.value.AsReal())
    ensures r.Ok? && e.option == "shooter_chance" ==> r.config == c.(shooterChance := e.value.AsReal())
    ensures r.Ok? && e.option == "lives_count" ==> r.config == c.(livesInit := e.value.n)
  {
    var v := e.value.AsReal();
    if e.option == "split_time" then Ok(c.(splitTime := v))
    else if e.option == "glue_time" then Ok(c.(glueTime := v))
    else if e.option == "shooter_time" then Ok(c.(shooterTime := v))
    else if e.option == "split_chance" then Ok(c.(splitChance := v))
    else if e.option == "glue_chance" then Ok(c.(glueChance := v))
    else if e.option == "shooter_chance" then Ok(c.(shooterChance := v))
    else if e.option == "lives_count" then
      match e.value
      case Whole(n) => Ok(c.(livesInit := n))
      case Fractional(_) => Err(FractionalLives)
    else Err(InvalidOption(e.option))
  }

  /** The entries applied in file order, stopping at the first error. */
  function ApplyAll(c: Config, entries: seq<Entry>): Result
    decreases |entries|
  {
    if entries == [] then Ok(c)
    else match ApplyEntry(c, entries[0])
      case Ok(c1) => ApplyAll(c1, entries[1..])
      case Err(e) => Err(e)
  }

  /** The dispatch loop of `load_config`, starting from the zeroed settings. */
  method LoadConfig(entries: seq<Entry>) returns (r: Result)
    ensures r == ApplyAll(DEFAULT_CONFIG, entries)
  {
    var c := DEFAULT_CONFIG;
    var k := 0;
    while k < |entries|
      invariant k <= |entries|
      invariant ApplyAll(c, entries[k..]) == ApplyAll(DEFAULT_CONFIG, entries)
    {
      var applied := ApplyEntry(c, entries[k]);
      assert entries[k..][0] == entries[k] && entries[k..][1..] == entries[k + 1..];
      if applied.Err? {
        return applied;
      }
      c := applied.config;
      k := k + 1;
    }
    return Ok(c);
  }

  /** An unknown option anywhere is fatal, whatever else the file holds. */
  lemma {:induction false} UnknownOptionFails(c: Config, entries: seq<Entry>, k: nat)
    requires k < |entries| && entries[k].option !in OPTIONS
    ensures ApplyAll(c, entries).Err?
    decreases |entries|
  {
    match ApplyEntry(c, entries[0])
    case Ok(c1) =>
      assert k != 0;
      UnknownOptionFails(c1, entries[1..], k - 1);
    case Err(_) =>
  }

  /** Without errors, an option the file never names keeps the value it had. */
  lemma {:induction false} UnnamedLivesKept(c: Config, entries: seq<Entry>)
    requires forall k :: 0 <= k < |entries| ==> entries[k].option != "lives_count"
    requires ApplyAll(c, entries).Ok?
    ensures ApplyAll(c, entries).config.livesInit == c.livesInit
    decreases |entries|
  {
    if entries != [] {
      var c1 := ApplyEntry(c, entries[0]).config;
      UnnamedLivesKept(c1, entries[1..]);
    }
  }

  /** Applying a file in two parts: the second part starts from what the first part left. */
  lemma {:induction false} ApplyAllAppend(c: Config, a: seq<Entry>, b: seq<Entry>)
    ensures ApplyAll(c, a + b) == if ApplyAll(c, a).Ok? then ApplyAll(ApplyAll(c, a).config, b) else ApplyAll(c, a)
    decreases |a|
  {
    if a != [] {
      assert (a + b)[0] == a[0] && (a + b)[1..] == a[1..] + b;
      match ApplyEntry(c, a[0])
      case Ok(c1) => ApplyAllAppend(c1, a[1..], b);
      case Err(_) =>
    } else {
      assert a + b == b;
    }
  }

  /** The last `lives_count` entry wins, wherever it stands in the file. */
  lemma LastLivesWins(c: Config, before: seq<Entry>, after: seq<Entry>, n: int)
    requires forall k :: 0 <= k < |after| ==> after[k].option != "lives_count"
    requires ApplyAll(c, before + [Entry("lives_count", Whole(n))] + after).Ok?
    ensures ApplyAll(c, before + [Entry("lives_count", Whole(n))] + after).config.livesInit == n
  {
    var e := Entry("lives_count", Whole(n));
    ApplyAllAppend(c, before + [e], after);
    ApplyAllAppend(c, before, [e]);
    var c1 := ApplyAll(c, before + [e]).config;
    UnnamedLivesKept(c1, after);
  }
}
