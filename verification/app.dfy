/**
 * crates/ui/src-tauri/src/main.rs: the desktop commands that carry decisions.
 * The settings table is read through `ConfigReader` (what `get_config`
 * answers for a key, failures included), so each rule is a pure function of
 * it; `AppState` holds the store and the current provider and replaces the
 * provider after a settings change. A command's error reaches the window as
 * the error's text.
 */
module App {
  import opened Errors
  import opened JsonValue
  import opened Provider
  import Sqlite

  /** What `get_config(key)` answers. */
  type ConfigReader = string -> Result<Option<string>>

  /** A command's answer to the window. */
  datatype CommandResult<T> = Done(value: T) | Failed(message: string)

  function ToCommand<T>(r: Result<T>): (c: CommandResult<T>)
    ensures r.Ok? <==> c.Done?
    ensures r.Ok? ==> c.value == r.value
    ensures r.Err? ==> c.message == ErrorText(r.error)
  {
    match r
    case Ok(v) => Done(v)
    case Err(e) => Failed(ErrorText(e))
  }

  /** `.unwrap_or(Some(default)).unwrap_or(default)`: a failed read and a missing key both give the default. */
  function ConfigOr(read: ConfigReader, key: string, default: string): (s: string)
    ensures read(key).Ok? && read(key).value.Some? ==> s == read(key).value.value
    ensures read(key).Err? || read(key).value.None? ==> s == default
  {
    match read(key)
    case Ok(Some(v)) => v
    case _ => default
  }

  /** `.unwrap_or(None)`: a failed read counts as a missing key. */
  function ConfigOpt(read: ConfigReader, key: string): (o: Option<string>)
    ensures o.Some? <==> read(key).Ok? && read(key).value.Some?
    ensures o.Some? ==> o.value == read(key).value.value
  {
    match read(key)
    case Ok(v) => v
    case Err(_) => None
  }

  /** What `get_config(k)` answers over `config` when `faults` names the reads that fail. */
  function StoreRead(config: Sqlite.ConfigTable, faults: string -> Option<string>, k: string): Result<Option<string>> {
    if faults(k).Some? then Err(Storage(faults(k).value)) else Ok(Sqlite.GetConfigTable(config, k))
  }

  /** No read fails. */
  function NoFaults(k: string): Option<string> {
    None
  }

  /** The reader over a settings table, with `faults` naming the reads that fail. */
  function StoreReader(config: Sqlite.ConfigTable, faults: string -> Option<string>): ConfigReader {
    k => StoreRead(config, faults, k)
  }

  // ---------------------------------------------------------------------
  // Provider selection (`save_config` and `setup`)

  const DefaultProviderType := "ollama"
  const LemonadeDefaultUrl := "http://localhost:8000/v1"
  const FoundryDefaultUrl := "http://localhost:5000/v1"
  const OllamaDefaultUrl := "http://localhost:11434"

  /** The settings key holding the endpoint of a provider type. */
  function UrlKey(providerType: string): string {
    if providerType == "lemonade" then "lemonade_url"
    else if providerType == "foundry" then "foundry_url"
    else "ollama_url"
  }

  function UrlDefault(providerType: string): string {
    if providerType == "lemonade" then LemonadeDefaultUrl
    else if providerType == "foundry" then FoundryDefaultUrl
    else OllamaDefaultUrl
  }

  function ProviderType(read: ConfigReader): string {
    ConfigOr(read, "provider_type", DefaultProviderType)
  }

  /** The provider the settings describe. */
  function ResolveProvider(read: ConfigReader): (p: ProviderConfig)
    ensures p.OllamaProvider? <==> ProviderType(read) == "ollama"
    ensures p.baseUrl == ConfigOr(read, UrlKey(ProviderType(read)), UrlDefault(ProviderType(read)))
    ensures p.modelName == ConfigOpt(read, "model_name")
    ensures p.OpenAICompatibleProvider? ==> p.apiKey == ConfigOpt(read, "api_key")
  {
    var providerType := ProviderType(read);
    var url := ConfigOr(read, UrlKey(providerType), UrlDefault(providerType));
    var model := ConfigOpt(read, "model_name");
    var apiKey := ConfigOpt(read, "api_key");
    if providerType == "ollama" then OllamaProvider(url, model)
    else OpenAICompatibleProvider(url, apiKey, model)
  }

  /** With no readable provider type, an Ollama provider at `ollama_url` (default localhost:11434). */
  lemma ProviderTypeDefaultsToOllama(read: ConfigReader)
    requires read("provider_type").Err? || read("provider_type") == Ok(None)
    ensures ResolveProvider(read) == OllamaProvider(ConfigOr(read, "ollama_url", "http://localhost:11434"), ConfigOpt(read, "model_name"))
  {
  }

  /** Every type but "ollama" is OpenAI-compatible; only "lemonade" and "foundry" have their own endpoint key. */
  lemma UrlSelection(read: ConfigReader, t: string)
    requires read("provider_type") == Ok(Some(t))
    ensures t == "lemonade" ==>
      ResolveProvider(read) == OpenAICompatibleProvider(ConfigOr(read, "lemonade_url", "http://localhost:8000/v1"),
                                                        ConfigOpt(read, "api_key"), ConfigOpt(read, "model_name"))
    ensures t == "foundry" ==>
      && ResolveProvider(read).OpenAICompatibleProvider?
      && ResolveProvider(read).baseUrl == ConfigOr(read, "foundry_url", "http://localhost:5000/v1")
    ensures t == "openai" ==>
      && ResolveProvider(read).OpenAICompatibleProvider?
      && ResolveProvider(read).baseUrl == ConfigOr(read, "ollama_url", "http://localhost:11434")
    ensures t !in {"ollama", "lemonade", "foundry"} ==>
      && ResolveProvider(read).OpenAICompatibleProvider?
      && ResolveProvider(read).baseUrl == ConfigOr(read, "ollama_url", "http://localhost:11434")
  {
  }

  /** The keys whose change rebuilds the provider. */
  predicate ReinitTrigger(key: string) {
    key == "ollama_url" || key == "model_name" || key == "provider_type" || key == "api_key"
  }

  /** Changing `lemonade_url` or `foundry_url` alone does not rebuild the provider. */
  lemma EndpointKeysDoNotTrigger()
    ensures !ReinitTrigger("lemonade_url") && !ReinitTrigger("foundry_url")
    ensures ReinitTrigger("provider_type") && ReinitTrigger("api_key")
  {
  }

  // ---------------------------------------------------------------------
  // `start_sync` defaults

  const I64_MAX: int := 0x7FFF_FFFF_FFFF_FFFF

  predicate IsDigit(c: char) { '0' <= c <= '9' }

  predicate AllDigits(s: string) { forall i :: 0 <= i < |s| ==> IsDigit(s[i]) }

  function DigitsValue(s: string): nat
    requires AllDigits(s)
  {
    if s == [] then 0 else 10 * DigitsValue(s[..|s| - 1]) + (s[|s| - 1] as int - '0' as int)
  }

  /** `str::parse::<i64>`: an optional sign, at least one digit, nothing else, in range. */
  function ParseI64(s: string): (r: Option<int>)
    ensures r.Some? ==> I64_MIN <= r.value <= I64_MAX
    // Only an optional sign followed by at least one digit is accepted ...
    ensures r.Some? ==> |s| >= 1 && (IsDigit(s[0]) || (|s| >= 2 && (s[0] == '+' || s[0] == '-')))
    ensures r.Some? ==> AllDigits(s[1..])
    // ... and each such text reads as its decimal value, when that is in range.
    ensures s != [] && AllDigits(s) ==>
      r == (if DigitsValue(s) <= I64_MAX then Some(DigitsValue(s)) else None)
    ensures |s| >= 2 && s[0] == '+' && AllDigits(s[1..]) ==>
      r == (if DigitsValue(s[1..]) <= I64_MAX then Some(DigitsValue(s[1..])) else None)
    ensures |s| >= 2 && s[0] == '-' && AllDigits(s[1..]) ==>
      r == (if DigitsValue(s[1..]) <= -I64_MIN then Some(0 - DigitsValue(s[1..])) else None)
  {
    if s == [] then None
    else
      var body := if s[0] == '+' || s[0] == '-' then s[1..] else s;
      if body == [] || !AllDigits(body) then None
      else
        var n: int := if s[0] == '-' then 0 - DigitsValue(body) else DigitsValue(body);
        if I64_MIN <= n <= I64_MAX then Some(n) else None
  }

  function DigitChar(d: int): char
    requires 0 <= d < 10
  {
    ('0' as int + d) as char
  }

  /** The decimal text of a natural number, as `to_string` writes it. */
  function NatText(n: nat): (s: string)
    ensures s != [] && AllDigits(s)
  {
    if n < 10 then [DigitChar(n)] else NatText(n / 10) + [DigitChar(n % 10)]
  }

  function IntText(i: int): string {
    if i < 0 then "-" + NatText(-i) else NatText(i)
  }

  lemma {:induction false} NatTextValue(n: nat)
    ensures DigitsValue(NatText(n)) == n
  {
    var s := NatText(n);
    if n >= 10 {
      NatTextValue(n / 10);
      assert s[..|s| - 1] == NatText(n / 10);
    }
  }

  /** Every i64 written as text parses back to itself. */
  lemma ParseI64RoundTrip(i: int)
    requires I64_MIN <= i <= I64_MAX
    ensures ParseI64(IntText(i)) == Some(i)
  {
    var s := IntText(i);
    if i < 0 {
      NatTextValue(-i);
      assert s[0] == '-' && s[1..] == NatText(-i);
    } else {
      NatTextValue(i);
      assert IsDigit(s[0]);
    }
  }

  function ConfigInt(read: ConfigReader, key: string, default: int): (n: int)
    ensures ConfigOpt(read, key).None? ==> n == default
    ensures ConfigOpt(read, key).Some? && ParseI64(ConfigOpt(read, key).value).None? ==> n == default
    ensures ConfigOpt(read, key).Some? && ParseI64(ConfigOpt(read, key).value).Some? ==>
      n == ParseI64(ConfigOpt(read, key).value).value
  {
    match ConfigOpt(read, key)
    case Some(s) => ParseI64(s).UnwrapOr(default)
    case None => default
  }

  /** A text with anything but digits after its first character never parses. */
  lemma ParseI64RejectsJunk(s: string, c: char)
    requires !IsDigit(c)
    ensures ParseI64(s + [c]) == None
    ensures c != '+' && c != '-' ==> ParseI64([c] + s) == None
  {
    var t := s + [c];
    assert t[|t| - 1] == c;
    if |t| >= 2 {
      assert t[1..][|t| - 2] == c;
    }
  }

  /** A stored i64, written in decimal, is read back; text with a stray character gives the default. */
  lemma ConfigIntReadsText(read: ConfigReader, key: string, default: int, i: int, s: string, c: char)
    requires I64_MIN <= i <= I64_MAX
    requires !IsDigit(c)
    ensures ConfigOpt(read, key) == Some(IntText(i)) ==> ConfigInt(read, key, default) == i
    ensures ConfigOpt(read, key) == Some(s + [c]) ==> ConfigInt(read, key, default) == default
  {
    ParseI64RoundTrip(i);
    ParseI64RejectsJunk(s, c);
  }

  /** `history_days`, 90 unless it holds an i64. */
  function HistoryDays(read: ConfigReader): int {
    ConfigInt(read, "history_days", 90)
  }

  /** `sync_interval`, 2 unless it holds an i64. */
  function SyncInterval(read: ConfigReader): int {
    ConfigInt(read, "sync_interval", 2)
  }

  lemma SyncDefaults(read: ConfigReader)
    ensures (read("history_days").Err? || read("history_days") == Ok(None) || read("history_days") == Ok(Some("ninety")))
      ==> HistoryDays(read) == 90
    ensures (read("sync_interval").Err? || read("sync_interval") == Ok(None) || read("sync_interval") == Ok(Some(" 5")))
      ==> SyncInterval(read) == 2
    ensures read("history_days") == Ok(Some("30")) ==> HistoryDays(read) == 30
    ensures read("sync_interval") == Ok(Some("-1")) ==> SyncInterval(read) == -1
  {
    assert "30"[..1] == "3" && "3"[..0] == [];
    assert AllDigits("30") && DigitsValue("30") == 30;
    assert ParseI64("30") == Some(30);
    assert "-1"[1..] == "1" && "1"[..0] == [];
    assert AllDigits("1") && DigitsValue("1") == 1;
    assert ParseI64("-1") == Some(-1);
    assert !IsDigit('n') && !IsDigit(' ');
  }

  // ---------------------------------------------------------------------
  // `request_exit` and the tray's "quit"

  /** Exit asks for confirmation unless `confirm_exit` reads exactly "false". */
  function ConfirmExit(read: ConfigReader): (confirm: bool)
    ensures !confirm <==> read("confirm_exit") == Ok(Some("false"))
  {
    ConfigOr(read, "confirm_exit", "true") != "false"
  }

  // ---------------------------------------------------------------------
  // `search_emails`

  /** Unicode White_Space, the set `char::is_whitespace` tests. */
  predicate IsWhitespace(c: char) {
    var n := c as int;
    (0x09 <= n <= 0x0D) || n == 0x20 || n == 0x85 || n == 0xA0 || n == 0x1680
    || (0x2000 <= n <= 0x200A) || n == 0x2028 || n == 0x2029 || n == 0x202F
    || n == 0x205F || n == 0x3000
  }

  /** Drops leading whitespace: the result is a suffix of `s` after a run of whitespace. */
  function TrimStart(s: string): (t: string)
    ensures |t| <= |s| && t == s[|s| - |t|..]
    ensures forall i :: 0 <= i < |s| - |t| ==> IsWhitespace(s[i])
    ensures t != [] ==> !IsWhitespace(t[0])
  {
    if s != [] && IsWhitespace(s[0]) then
      var t := TrimStart(s[1..]);
      assert forall i :: 1 <= i < |s| - |t| ==> s[i] == s[1..][i - 1];
      t
    else s
  }

  /** Drops trailing whitespace: the result is a prefix of `s` followed by a run of whitespace. */
  function TrimEnd(s: string): (t: string)
    ensures |t| <= |s| && t == s[..|t|]
    ensures forall i :: |t| <= i < |s| ==> IsWhitespace(s[i])
    ensures t != [] ==> !IsWhitespace(t[|t| - 1])
  {
    if s != [] && IsWhitespace(s[|s| - 1]) then
      var t := TrimEnd(s[..|s| - 1]);
      assert forall i :: |t| <= i < |s| - 1 ==> s[i] == s[..|s| - 1][i];
      t
    else s
  }

  /** `str::trim` */
  function Trim(s: string): string {
    TrimEnd(TrimStart(s))
  }

  predicate Blank(s: string) {
    forall i :: 0 <= i < |s| ==> IsWhitespace(s[i])
  }

  lemma TrimStartEmpty(s: string)
    ensures TrimStart(s) == [] <==> Blank(s)
  {
    var t := TrimStart(s);
    if t != [] {
      assert t[0] == s[|s| - |t|];
    }
  }

  /** A query trims to nothing exactly when every character is whitespace. */
  lemma TrimEmptyIffBlank(s: string)
    ensures Trim(s) == [] <==> Blank(s)
  {
    TrimStartEmpty(s);
    if TrimStart(s) != [] {
      // TrimEnd keeps the first character, which is not whitespace.
      assert TrimEnd(TrimStart(s)) != [];
    }
  }

  /** A Qdrant point id: a number or a UUID. */
  datatype PointId = Num(n: U64) | Uuid(text: string)

  datatype ScoredPoint = ScoredPoint(id: Option<PointId>, score: real, payload: map<string, Value>)

  /** `num as i64`: the u64 is reinterpreted in two's complement. */
  function AsI64(n: U64): (i: int)
    ensures I64_MIN <= i <= I64_MAX
    ensures i % 0x1_0000_0000_0000_0000 == n
  {
    if n <= I64_MAX then n else n - 0x1_0000_0000_0000_0000
  }

  /** The numeric point ids, in result order, as i64. */
  function PointIds(points: seq<ScoredPoint>): (ids: seq<int>)
    ensures |ids| <= |points|
  {
    if points == [] then []
    else
      var rest := PointIds(points[1..]);
      match points[0].id
      case Some(Num(n)) => [AsI64(n)] + rest
      case _ => rest
  }

  lemma {:induction false} PointIdsOfNumbers(points: seq<ScoredPoint>)
    requires forall k :: 0 <= k < |points| ==> points[k].id.Some? && points[k].id.value.Num?
    ensures |PointIds(points)| == |points|
    ensures forall k :: 0 <= k < |points| ==> PointIds(points)[k] == AsI64(points[k].id.value.n)
  {
    if points != [] {
      PointIdsOfNumbers(points[1..]);
    }
  }

  /** The ids of concatenated results are the ids of each part, in order. */
  lemma {:induction false} PointIdsAppend(xs: seq<ScoredPoint>, ys: seq<ScoredPoint>)
    ensures PointIds(xs + ys) == PointIds(xs) + PointIds(ys)
  {
    if xs == [] {
      assert xs + ys == ys;
    } else {
      assert (xs + ys)[1..] == xs[1..] + ys;
      PointIdsAppend(xs[1..], ys);
    }
  }

  /** A point without an id, or with a UUID, contributes nothing; a numeric one contributes its cast in place. */
  lemma PointIdsOfOne(xs: seq<ScoredPoint>, p: ScoredPoint, ys: seq<ScoredPoint>)
    ensures !(p.id.Some? && p.id.value.Num?) ==> PointIds(xs + [p] + ys) == PointIds(xs) + PointIds(ys)
    ensures p.id.Some? && p.id.value.Num? ==>
      PointIds(xs + [p] + ys) == PointIds(xs) + [AsI64(p.id.value.n)] + PointIds(ys)
  {
    PointIdsAppend(xs + [p], ys);
    PointIdsAppend(xs, [p]);
    assert [p][1..] == [];
  }

  /** A stable id at or above 2^63 becomes a negative row id, which no row has. */
  lemma HighIdsTurnNegative(n: U64)
    requires n > I64_MAX
    ensures AsI64(n) < 0
  {
  }

  const RecentLimit := 50
  const SearchLimit := 20

  /**
   * `search_emails`. A blank query lists the 50 newest emails and asks for no
   * embedding; otherwise the query text is embedded, the 20 nearest points
   * are fetched, and their numeric ids are looked up as relational row ids.
   * `embed` and `search` are the provider's and the vector store's answers.
   */
  method SearchEmails(db: Sqlite.SqliteStore, query: string,
                      embed: Result<Embedding>, search: Result<seq<ScoredPoint>>,
                      recentFault: Option<string>, lookupFault: nat -> Option<string>)
    returns (r: CommandResult<seq<Value>>, embedded: Option<string>, searchLimit: Option<int>, ids: seq<int>)
    ensures Blank(query) ==>
      && embedded.None? && searchLimit.None?
      && |ids| == Sqlite.Limited(50, |db.emails.rows|)
      && Sqlite.NewestFirst(db.emails.rows, ids)
      && (forall j, k :: j in db.emails.rows && j !in ids && 0 <= k < |ids| ==>
            db.emails.rows[j].receivedAt <= db.emails.rows[ids[k]].receivedAt)
      && (recentFault.Some? ==> r == Failed(ErrorText(Storage(recentFault.value))))
      && (recentFault.None? ==> r == Done(Sqlite.RowsJson(db.emails.rows, db.facts, ids)))
    ensures !Blank(query) ==> embedded == Some(query)
    ensures !Blank(query) && embed.Err? ==> r == Failed(ErrorText(embed.error)) && searchLimit.None?
    ensures !Blank(query) && embed.Ok? ==> searchLimit == Some(20)
    ensures !Blank(query) && embed.Ok? && search.Err? ==> r == Failed(ErrorText(search.error))
    ensures !Blank(query) && embed.Ok? && search.Ok? ==>
      ids == PointIds(search.value)
      && ((forall k :: 0 <= k < |ids| ==> lookupFault(k).None?) <==> r.Done?)
      && (r.Done? ==> r.value == Sqlite.ByIds(db.emails.rows, db.facts, ids))
  {
    embedded, searchLimit := None, None;
    TrimEmptyIffBlank(query);
    if Trim(query) == [] {
      var recent;
      recent, ids := db.GetRecentEmails(RecentLimit, recentFault);
      return ToCommand(recent), embedded, searchLimit, ids;
    }
    embedded := Some(query);
    ids := [];
    if embed.Err? {
      return Failed(ErrorText(embed.error)), embedded, searchLimit, ids;
    }
    searchLimit := Some(SearchLimit);
    if search.Err? {
      return Failed(ErrorText(search.error)), embedded, searchLimit, ids;
    }
    ids := PointIds(search.value);
    var found := db.GetEmailsByIds(ids, lookupFault);
    r := ToCommand(found);
  }

  /** The state `save_config` touches: the settings store and the current provider. */
  class AppState {
    var db: Sqlite.SqliteStore
    var provider: ProviderConfig

    /** `setup`: the provider is resolved from the stored settings. */
    constructor(db: Sqlite.SqliteStore, readFaults: string -> Option<string>)
      ensures this.db == db
      ensures provider == ResolveProvider(StoreReader(db.config, readFaults))
    {
      this.db := db;
      provider := ResolveProvider(StoreReader(db.config, readFaults));
    }

    /**
     * `save_config`: write the setting; after a successful write of one of
     * the provider keys, rebuild the provider from the stored settings.
     */
    method SaveConfig(key: string, value: string, now: int, fault: Option<string>, readFaults: string -> Option<string>)
      returns (r: CommandResult<()>)
      requires db.Valid()
      modifies this, db
      ensures db == old(db) && db.Valid()
      ensures db.emails == old(db.emails) && db.facts == old(db.facts)
      ensures fault.Some? ==>
        r == Failed(ErrorText(Storage(fault.value))) && db.config == old(db.config) && provider == old(provider)
      ensures fault.None? ==> r == Done(()) && db.config == Sqlite.SetConfigTable(old(db.config), key, value, now)
      ensures fault.None? && ReinitTrigger(key) ==> provider == ResolveProvider(StoreReader(db.config, readFaults))
      ensures fault.None? && !ReinitTrigger(key) ==> provider == old(provider)
    {
      var written := db.SetConfig(key, value, now, fault);
      if written.Err? {
        return Failed(ErrorText(written.error));
      }
      if ReinitTrigger(key) {
        provider := ResolveProvider(StoreReader(db.config, readFaults));
      }
      r := Done(());
    }
  }

  /** Switching to "lemonade" yields an OpenAI-compatible provider at the stored `lemonade_url`, or its default. */
  lemma SwitchToLemonade(config: Sqlite.ConfigTable, now: int)
    ensures var read := StoreReader(Sqlite.SetConfigTable(config, "provider_type", "lemonade", now), NoFaults);
      ResolveProvider(read) == OpenAICompatibleProvider(
        Sqlite.GetConfigTable(config, "lemonade_url").UnwrapOr("http://localhost:8000/v1"),
        Sqlite.GetConfigTable(config, "api_key"),
        Sqlite.GetConfigTable(config, "model_name"))
  {
    var updated := Sqlite.SetConfigTable(config, "provider_type", "lemonade", now);
    var read := StoreReader(updated, NoFaults);
    assert read("provider_type") == StoreRead(updated, NoFaults, "provider_type") == Ok(Some("lemonade"));
    assert read("lemonade_url") == StoreRead(updated, NoFaults, "lemonade_url");
    assert read("api_key") == StoreRead(updated, NoFaults, "api_key");
    assert read("model_name") == StoreRead(updated, NoFaults, "model_name");
  }
}
