/**
 Synchronisation of the feed tables with catalog files, as a specification on values.  The session
 does not flush by itself, so every feed row has two sides: what the database last got, which
 queries filter on, and what the session's object shows.
 */
module CatalogSync {
  import opened Common

  /** A feed with its scraping row's protection, if that row exists, and its tags. */
  datatype FeedRow = FeedRow(id: nat, section: Option<string>, enabled: bool, trust: real,
                             company: Option<string>, protection: Option<int>, tags: seq<string>)

  datatype Tracked = Tracked(flushed: FeedRow, current: FeedRow)

  /** A company's row without its name.  Only its name is ever queried, so one side is enough. */
  datatype Company = Company(host: Option<string>, icon: Option<string>, country: Option<string>,
                             language: Option<string>, protection: int, enabled: bool)

  /** Feeds by their unique URL, the tag names, the companies by name, and the next feed id. */
  datatype State = State(rows: map<string, Tracked>, tags: set<string>, companies: map<string, Company>, nextId: nat)

  /** A catalog entry; its URL is stripped and its tags are normalised. */
  datatype SourceFeed = SourceFeed(url: string, section: Option<string>, enabled: bool, trust: real,
                                   protection: Option<int>, tags: seq<string>)

  datatype Payload = Payload(url: string, section: Option<string>, enabled: bool, trust: real,
                             protection: int, tags: seq<string>)

  /** What a catalog says about its company. */
  datatype Details = Details(host: Option<string>, icon: string, country: Option<string>, language: Option<string>,
                             protection: int)

  /** A catalog; its company name and image are stripped, host, country and language are normalised. */
  datatype Catalog = Catalog(company: string, img: Option<string>, host: Option<string>, country: Option<string>,
                             language: Option<string>, protection: int, feeds: seq<SourceFeed>)

  datatype Content = Missing | Unreadable | Readable(catalog: Catalog)

  /** A changed file, and the company name its path yields, if it yields one. */
  datatype File = File(fallback: Option<string>, content: Content)

  datatype SyncError = PathError | ParseError | ImageError | PayloadError | DatabaseError

  const MAX_URL := 500
  const MAX_COMPANY := 50
  const MAX_TAG := 50

  // --- Entries ---

  function Clamp(value: int): int {
    if value < 0 then 0 else if value > 2 then 2 else value
  }

  function NormalizeSourceFeedEntry(f: SourceFeed, defaultProtection: int): Payload {
    var protection := if f.protection.Some? && 0 <= f.protection.value <= 2 then f.protection.value
                      else Clamp(defaultProtection);
    Payload(f.url, f.section, f.enabled, f.trust, protection, f.tags)
  }

  function Payloads(feeds: seq<SourceFeed>, defaultProtection: int): (ps: seq<Payload>)
    ensures |ps| == |feeds|
  {
    if feeds == [] then []
    else
      var n := |feeds| - 1;
      Payloads(feeds[..n], defaultProtection) + [NormalizeSourceFeedEntry(feeds[n], defaultProtection)]
  }

  /** The schema accepts it. */
  predicate Acceptable(p: Payload) {
    0 < |p.url| <= MAX_URL
  }

  /** A tag that is not stored yet and does not fit its column. */
  predicate TagsOverflow(tags: set<string>, names: seq<string>) {
    exists t :: 0 <= t < |names| && names[t] !in tags && |names[t]| > MAX_TAG
  }

  /** Some entry's tags cannot be stored. */
  predicate TagsRefused(tags: set<string>, ps: seq<Payload>) {
    exists k :: 0 <= k < |ps| && TagsOverflow(tags, ps[k].tags)
  }

  function NormalizeFetchProtection(value: int): int {
    if 0 <= value <= 2 then value else 1
  }

  function Max(a: int, b: int): int {
    if a >= b then a else b
  }

  // --- The session ---

  function FlushRows(rows: map<string, Tracked>): map<string, Tracked> {
    map url | url in rows :: Tracked(rows[url].current, rows[url].current)
  }

  function Flush(s: State): State {
    s.(rows := FlushRows(s.rows))
  }

  ghost predicate Flushed(s: State) {
    forall url :: url in s.rows ==> s.rows[url].flushed == s.rows[url].current
  }

  function TagSet(tags: seq<string>): set<string> {
    set tag | tag in tags
  }

  function WithTags(s: State, tags: seq<string>): State {
    if TagSet(tags) <= s.tags then s else Flush(s).(tags := s.tags + TagSet(tags))
  }

  function NewCompany(d: Details): Company {
    Company(d.host, Some(d.icon), d.country, d.language, Clamp(d.protection), true)
  }

  /** An update stores no empty icon, and leaves the company enabled or disabled as it was. */
  function UpdatedCompany(c: Company, d: Details): Company {
    Company(d.host, if d.icon == "" then None else Some(d.icon), d.country, d.language, Clamp(d.protection), c.enabled)
  }

  function WithCompany(s: State, company: string, d: Details): State {
    if company in s.companies then s.(companies := s.companies[company := UpdatedCompany(s.companies[company], d)])
    else Flush(s).(companies := s.companies[company := NewCompany(d)])
  }

  function NewFeed(id: nat, p: Payload): FeedRow {
    FeedRow(id, p.section, p.enabled, p.trust, None, Some(NormalizeFetchProtection(p.protection)), p.tags)
  }

  function OldProtection(row: FeedRow): int {
    NormalizeFetchProtection(row.protection.Coalesce(Some(1)).value)
  }

  function UpdatedFeed(row: FeedRow, p: Payload): FeedRow {
    row.(section := p.section, enabled := p.enabled, trust := p.trust, tags := p.tags,
         protection := Some(Max(OldProtection(row), NormalizeFetchProtection(p.protection))))
  }

  /** An unknown URL is inserted, and the insert flushes everything; a known one changes its object only. */
  function Upserted(s: State, p: Payload): State {
    if p.url in s.rows then
      var row := s.rows[p.url];
      s.(rows := s.rows[p.url := row.(current := UpdatedFeed(row.current, p))])
    else
      var row := NewFeed(s.nextId, p);
      s.(rows := FlushRows(s.rows)[p.url := Tracked(row, row)], nextId := s.nextId + 1)
  }

  function Linked(s: State, company: string, url: string): State {
    if url in s.rows then
      var row := s.rows[url];
      s.(rows := s.rows[url := row.(current := row.current.(company := Some(company)))])
    else s
  }

  function EntrySynced(s: State, company: string, p: Payload): State {
    Linked(Upserted(WithTags(s, p.tags), p), company, p.url)
  }

  function EntriesSynced(s: State, company: string, ps: seq<Payload>): State {
    if ps == [] then s
    else
      var n := |ps| - 1;
      EntrySynced(EntriesSynced(s, company, ps[..n]), company, ps[n])
  }

  function UrlSet(ps: seq<Payload>): set<string> {
    set k | 0 <= k < |ps| :: ps[k].url
  }

  /** The query sees the flushed side of a row only. */
  function Surplus(s: State, company: string, expected: set<string>): set<string> {
    set url | url in s.rows && s.rows[url].flushed.company == Some(company) && url !in expected
  }

  function RestDeleted(s: State, company: string, expected: set<string>): State {
    s.(rows := s.rows - Surplus(s, company, expected))
  }

  // --- One file, and a run ---

  /** What a file asks for once it has been read and checked. */
  datatype Plan = Reconcile(company: string, details: Details, payloads: seq<Payload>) | RemoveAll(company: string)

  function DetailsOf(catalog: Catalog): Details {
    Details(catalog.host, catalog.img.Coalesce(Some("")).value, catalog.country, catalog.language, Clamp(catalog.protection))
  }

  function PlanOf(file: File, s: State): Result<Plan, SyncError> {
    if file.fallback.None? then Err(PathError)
    else match file.content
      case Missing => Ok(RemoveAll(file.fallback.value))
      case Unreadable => Err(ParseError)
      case Readable(catalog) =>
        var company := if catalog.company == "" then file.fallback.value else catalog.company;
        var ps := Payloads(catalog.feeds, Clamp(catalog.protection));
        if catalog.img.None? then Err(ImageError)
        else if company !in s.companies && |company| > MAX_COMPANY then Err(DatabaseError)
        else if exists k :: 0 <= k < |ps| && !Acceptable(ps[k]) then Err(PayloadError)
        else if TagsRefused(s.tags, ps) then Err(DatabaseError)
        else Ok(Reconcile(company, DetailsOf(catalog), ps))
  }

  function Expected(plan: Plan): set<string> {
    match plan
    case Reconcile(_, _, ps) => UrlSet(ps)
    case RemoveAll(_) => {}
  }

  function Applied(s: State, plan: Plan): State {
    match plan
    case Reconcile(company, d, ps) =>
      RestDeleted(EntriesSynced(WithCompany(s, company, d), company, ps), company, UrlSet(ps))
    case RemoveAll(company) =>
      if company in s.companies then RestDeleted(s, company, {}) else s
  }

  function FileSynced(s: State, file: File): Result<State, SyncError> {
    match PlanOf(file, s)
    case Err(e) => Err(e)
    case Ok(plan) => Ok(Applied(s, plan))
  }

  function FilesSynced(s: State, files: seq<File>): Result<State, SyncError> {
    if files == [] then Ok(s)
    else
      var n := |files| - 1;
      match FilesSynced(s, files[..n])
      case Err(e) => Err(e)
      case Ok(t) => FileSynced(t, files[n])
  }

  // --- What a run does to one URL ---

  /** Some entry makes the session flush: a new URL or a new tag. */
  predicate EntriesFlush(s: State, ps: seq<Payload>) {
    exists k :: 0 <= k < |ps| && (ps[k].url !in s.rows || !(TagSet(ps[k].tags) <= s.tags))
  }

  predicate PlanFlushes(s: State, plan: Plan) {
    plan.Reconcile? && (plan.company !in s.companies || EntriesFlush(s, plan.payloads))
  }

  /** The feed's row as the session's object shows it. */
  function View(s: State, url: string): Option<FeedRow> {
    if url in s.rows then Some(s.rows[url].current) else None
  }

  predicate Owns(s: State, company: string, url: string) {
    url in s.rows && s.rows[url].current.company == Some(company)
  }

  predicate OwnsFlushed(s: State, company: string, url: string) {
    url in s.rows && s.rows[url].flushed.company == Some(company)
  }

  predicate UrlAmong(ps: seq<Payload>, url: string) {
    exists k :: 0 <= k < |ps| && ps[k].url == url
  }

  lemma UrlAmongLast(ps: seq<Payload>, url: string)
    requires ps != []
    ensures UrlAmong(ps, url) <==> UrlAmong(ps[..|ps| - 1], url) || ps[|ps| - 1].url == url
  {
    var n := |ps| - 1;
    assert forall k :: 0 <= k < n ==> ps[..n][k] == ps[k];
  }

  lemma EntriesFlushLast(s: State, ps: seq<Payload>)
    requires ps != []
    ensures var n := |ps| - 1;
            EntriesFlush(s, ps) <==> EntriesFlush(s, ps[..n]) || ps[n].url !in s.rows || !(TagSet(ps[n].tags) <= s.tags)
  {
    var n := |ps| - 1;
    assert forall k :: 0 <= k < n ==> ps[..n][k] == ps[k];
  }

  /** Keys and tags after the entries, and who is left alone. */
  lemma {:induction false} EntriesKeys(s: State, company: string, ps: seq<Payload>, url: string)
    ensures url in EntriesSynced(s, company, ps).rows <==> url in s.rows || UrlAmong(ps, url)
    ensures s.tags <= EntriesSynced(s, company, ps).tags
    ensures EntriesSynced(s, company, ps).companies == s.companies
  {
    if ps != [] {
      EntriesKeys(s, company, ps[..|ps| - 1], url);
      UrlAmongLast(ps, url);
    }
  }

  lemma {:induction false} EntriesTags(s: State, company: string, ps: seq<Payload>)
    ensures EntriesSynced(s, company, ps).tags == s.tags || EntriesFlush(s, ps)
  {
    if ps != [] {
      EntriesTags(s, company, ps[..|ps| - 1]);
      EntriesFlushLast(s, ps);
    }
  }

  /** A row no entry names keeps its object; it is flushed iff some entry flushed. */
  lemma {:induction false} EntriesOther(s: State, company: string, ps: seq<Payload>, url: string)
    requires !UrlAmong(ps, url) && url in s.rows
    ensures var t := EntriesSynced(s, company, ps);
            url in t.rows && t.rows[url] == Tracked(if EntriesFlush(s, ps) then s.rows[url].current else s.rows[url].flushed,
                                                    s.rows[url].current)
  {
    if ps != [] {
      var n := |ps| - 1;
      UrlAmongLast(ps, url);
      EntriesOther(s, company, ps[..n], url);
      EntriesFlushLast(s, ps);
      EntriesTags(s, company, ps[..n]);
      EntriesKeys(s, company, ps[..n], ps[n].url);
      if UrlAmong(ps[..n], ps[n].url) && ps[n].url !in s.rows {
        EntryFlushes(s, ps[..n], ps[n].url);
      }
    }
  }

  lemma EntryFlushes(s: State, ps: seq<Payload>, url: string)
    requires UrlAmong(ps, url) && url !in s.rows
    ensures EntriesFlush(s, ps)
  {
  }
}
