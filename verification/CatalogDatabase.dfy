/** The database session of a catalog synchronisation, changed in place as the service does it. */
module CatalogDatabase {
  import opened Common
  import opened CatalogSync
  import opened CatalogLaws

  lemma PayloadAt(feeds: seq<SourceFeed>, protection: int, k: nat)
    requires k < |feeds|
    ensures Payloads(feeds[..k + 1], protection)
         == Payloads(feeds[..k], protection) + [NormalizeSourceFeedEntry(feeds[k], protection)]
  {
    assert feeds[..k + 1][..k] == feeds[..k];
  }

  lemma {:induction false} RefusedPayload(feeds: seq<SourceFeed>, protection: int, n: nat, k: nat)
    requires k < n <= |feeds|
    ensures Payloads(feeds[..n], protection)[k] == NormalizeSourceFeedEntry(feeds[k], protection)
  {
    PayloadAt(feeds, protection, n - 1);
    if k < n - 1 {
      RefusedPayload(feeds, protection, n - 1, k);
    }
  }

  /** What was added to the tags fits the column. */
  ghost predicate ShortTagsAdded(before: set<string>, after: set<string>) {
    forall tag :: tag in after && tag !in before ==> |tag| <= MAX_TAG
  }

  /** Tags stored by earlier entries decide nothing about later ones. */
  lemma OverflowIsNew(before: set<string>, after: set<string>, names: seq<string>)
    requires before <= after && ShortTagsAdded(before, after)
    ensures TagsOverflow(after, names) <==> TagsOverflow(before, names)
    ensures !TagsOverflow(before, names) ==> ShortTagsAdded(before, after + TagSet(names))
  {
    forall tag | tag in after + TagSet(names) && tag !in before && !TagsOverflow(before, names) ensures |tag| <= MAX_TAG {
      if tag !in after {
        var t :| 0 <= t < |names| && names[t] == tag;
      }
    }
  }

  lemma EntriesNext(s: State, company: string, ps: seq<Payload>, k: nat)
    requires k < |ps|
    ensures EntriesSynced(s, company, ps[..k + 1]) == EntrySynced(EntriesSynced(s, company, ps[..k]), company, ps[k])
    ensures TagsRefused(s.tags, ps[..k + 1]) <==> TagsRefused(s.tags, ps[..k]) || TagsOverflow(s.tags, ps[k].tags)
    ensures TagsOverflow(s.tags, ps[k].tags) ==> TagsRefused(s.tags, ps)
  {
    assert ps[..k + 1][..k] == ps[..k];
    assert forall j :: 0 <= j <= k ==> ps[..k + 1][j] == ps[j];
    assert forall j :: 0 <= j < k ==> ps[..k][j] == ps[j];
  }

  class Session {
    var rows: map<string, Tracked>
    var tags: set<string>
    var companies: map<string, Company>
    var nextId: nat
    var committedRows: map<string, Tracked>
    var committedTags: set<string>
    var committedCompanies: map<string, Company>

    ghost function Contents(): State
      reads this
    {
      State(rows, tags, companies, nextId)
    }

    /** Nothing has been done since the last commit or rollback. */
    ghost predicate Clean()
      reads this
    {
      && Flushed(Contents())
      && rows == committedRows && tags == committedTags && companies == committedCompanies
    }

    method FlushChanges()
      modifies this`rows
      ensures Contents() == Flush(old(Contents()))
    {
      rows := map url | url in rows :: Tracked(rows[url].current, rows[url].current);
    }

    /** Missing tags are inserted with a flush, which raises when one of them is too long. */
    method GetOrCreateTags(names: seq<string>) returns (failed: bool)
      modifies this`rows, this`tags
      ensures failed <==> TagsOverflow(old(tags), names)
      ensures !failed ==> Contents() == WithTags(old(Contents()), names)
    {
      failed := false;
      var missing: set<string> := set name | name in names && name !in tags;
      assert missing == TagSet(names) - tags;
      assert TagSet(names) <= tags + missing;
      if missing == {} {
        assert TagSet(names) <= tags;
      } else {
        var name :| name in missing;
        assert name in TagSet(names);
        if exists long :: long in missing && |long| > MAX_TAG {
          return true;
        }
        assert forall t :: 0 <= t < |names| && names[t] !in tags ==> names[t] in missing;
        FlushChanges();
        tags := tags + missing;
        assert tags == old(tags) + TagSet(names);
      }
    }

    method GetOrCreateCompany(name: string, d: Details) returns (failed: bool)
      modifies this`rows, this`companies
      ensures failed <==> name !in old(companies) && |name| > MAX_COMPANY
      ensures !failed ==> Contents() == WithCompany(old(Contents()), name, d)
    {
      failed := false;
      if name in companies {
        var stored := companies[name];
        var icon := if |d.icon| > 0 then Some(d.icon) else None;
        companies := companies[name := stored.(host := d.host, icon := icon, country := d.country,
                                               language := d.language, protection := Clamp(d.protection))];
      } else {
        if |name| > MAX_COMPANY {
          return true;
        }
        FlushChanges();
        companies := companies[name := Company(d.host, Some(d.icon), d.country, d.language, Clamp(d.protection), true)];
      }
    }

    /** Of the given URLs, those that have a feed. */
    method ListRssFeedsByUrls(ps: seq<Payload>) returns (existing: set<string>)
      ensures existing == UrlSet(ps) * rows.Keys
    {
      existing := set k | 0 <= k < |ps| && ps[k].url in rows :: ps[k].url;
    }

    method UpsertFeed(p: Payload, known: bool)
      requires known ==> p.url in rows
      modifies this`rows, this`nextId
      ensures Contents() == Upserted(old(Contents()), p)
    {
      var found := known;
      if !found {
        found := p.url in rows;
      }
      if found {
        var row := rows[p.url].current;
        var before := NormalizeFetchProtection(if row.protection.Some? then row.protection.value else 1);
        var asked := NormalizeFetchProtection(p.protection);
        var row' := row.(section := p.section, enabled := p.enabled, trust := p.trust,
                         protection := Some(if before >= asked then before else asked), tags := p.tags);
        rows := rows[p.url := rows[p.url].(current := row')];
      } else {
        // The unique constraint on URLs cannot fail: no row has this one.
        assert p.url !in rows;
        var feed := FeedRow(nextId, p.section, p.enabled, p.trust, None,
                            Some(NormalizeFetchProtection(p.protection)), p.tags);
        FlushChanges();
        rows := rows[p.url := Tracked(feed, feed)];
        nextId := nextId + 1;
      }
    }

    method LinkCompanyToFeed(company: string, url: string) returns (linked: bool)
      modifies this`rows
      ensures Contents() == Linked(old(Contents()), company, url)
      ensures linked <==> url in old(rows) && !Owns(old(Contents()), company, url)
    {
      if url !in rows {
        return false;
      }
      var row := rows[url];
      if row.current.company == Some(company) {
        assert row.current.(company := Some(company)) == row.current;
        return false;
      }
      rows := rows[url := row.(current := row.current.(company := Some(company)))];
      linked := true;
    }

    method DeleteCompanyFeedsNotInUrls(company: string, expected: set<string>) returns (deleted: nat)
      modifies this`rows
      ensures Contents() == RestDeleted(old(Contents()), company, expected)
      ensures deleted == |Surplus(old(Contents()), company, expected)|
    {
      var doomed := set url | url in rows && rows[url].flushed.company == Some(company) && url !in expected;
      assert doomed == Surplus(Contents(), company, expected);
      rows := rows - doomed;
      deleted := |doomed|;
    }

    method BuildPayloads(feeds: seq<SourceFeed>, protection: int) returns (ps: seq<Payload>, refused: bool)
      ensures refused <==> exists k :: 0 <= k < |feeds| && !Acceptable(Payloads(feeds, protection)[k])
      ensures !refused ==> ps == Payloads(feeds, protection)
    {
      ps := [];
      for k := 0 to |feeds|
        invariant ps == Payloads(feeds[..k], protection)
        invariant forall j :: 0 <= j < k ==> Acceptable(Payloads(feeds, protection)[j])
      {
        var p := NormalizeSourceFeedEntry(feeds[k], protection);
        PayloadAt(feeds, protection, k);
        RefusedPayload(feeds, protection, |feeds|, k);
        assert feeds[..|feeds|] == feeds;
        if !(0 < |p.url| <= MAX_URL) {
          assert !Acceptable(Payloads(feeds, protection)[k]);
          return ps, true;
        }
        ps := ps + [p];
      }
      assert feeds[..|feeds|] == feeds;
      refused := false;
    }

    /** One round of the entry loop. */
    method SyncEntry(company: string, p: Payload, known: bool) returns (failed: bool)
      requires known ==> p.url in rows
      modifies this`rows, this`tags, this`nextId
      ensures nextId >= old(nextId)
      ensures failed <==> TagsOverflow(old(tags), p.tags)
      ensures !failed ==> Contents() == EntrySynced(old(Contents()), company, p)
      ensures !failed ==> tags == old(tags) + TagSet(p.tags) && rows.Keys == old(rows.Keys) + {p.url}
    {
      failed := GetOrCreateTags(p.tags);
      if !failed {
        UpsertFeed(p, known);
        var _ := LinkCompanyToFeed(company, p.url);
      }
    }

    /** The entry loop; it stops at the first entry whose tags cannot be stored. */
    method SyncEntries(company: string, ps: seq<Payload>) returns (failed: bool)
      modifies this`rows, this`tags, this`nextId
      ensures nextId >= old(nextId)
      ensures failed <==> TagsRefused(old(tags), ps)
      ensures !failed ==> Contents() == EntriesSynced(old(Contents()), company, ps)
    {
      ghost var s := Contents();
      var existing := ListRssFeedsByUrls(ps);
      for k := 0 to |ps|
        invariant Contents() == EntriesSynced(s, company, ps[..k]) && nextId >= s.nextId
        invariant existing <= rows.Keys
        invariant s.tags <= tags && ShortTagsAdded(s.tags, tags)
        invariant !TagsRefused(s.tags, ps[..k])
      {
        EntriesNext(s, company, ps, k);
        OverflowIsNew(s.tags, tags, ps[k].tags);
        failed := SyncEntry(company, ps[k], ps[k].url in existing);
        if failed {
          return;
        }
        existing := existing + {ps[k].url};
      }
      assert ps[..|ps|] == ps;
      failed := false;
    }

    method SyncCatalogFile(file: File) returns (error: Option<SyncError>)
      modifies this`rows, this`tags, this`companies, this`nextId
      ensures nextId >= old(nextId)
      ensures match FileSynced(old(Contents()), file)
              case Err(e) => error == Some(e)
              case Ok(t) => error == None && Contents() == t
    {
      if file.fallback.None? {
        return Some(PathError);
      }
      if file.content.Missing? {
        if file.fallback.value in companies {
          var _ := DeleteCompanyFeedsNotInUrls(file.fallback.value, {});
        }
        return None;
      }
      if file.content.Unreadable? {
        return Some(ParseError);
      }
      var catalog := file.content.catalog;
      var company := if catalog.company == "" then file.fallback.value else catalog.company;
      if catalog.img.None? {
        return Some(ImageError);
      }
      ghost var s := Contents();
      var failed := GetOrCreateCompany(company, DetailsOf(catalog));
      if failed {
        return Some(DatabaseError);
      }
      var ps, refused := BuildPayloads(catalog.feeds, Clamp(catalog.protection));
      if refused {
        return Some(PayloadError);
      }
      failed := SyncEntries(company, ps);
      if failed {
        return Some(DatabaseError);
      }
      var _ := DeleteCompanyFeedsNotInUrls(company, UrlSet(ps));
      error := None;
    }

    /** Everything but the id sequence goes back to the last commit. */
    method Rollback()
      modifies this`rows, this`tags, this`companies
      ensures rows == committedRows && tags == committedTags && companies == committedCompanies
    {
      rows, tags, companies := committedRows, committedTags, committedCompanies;
    }

    method Commit()
      modifies this`rows, this`committedRows, this`committedTags, this`committedCompanies
      ensures Contents() == Flush(old(Contents())) && Clean()
    {
      FlushChanges();
      committedRows, committedTags, committedCompanies := rows, tags, companies;
    }

    /** A run commits all its files or, on any error, leaves the database as it was. */
    method SyncRssCatalog(files: seq<File>, commitSucceeds: bool) returns (error: Option<SyncError>)
      requires Clean()
      modifies this
      ensures Clean()
      ensures match FilesSynced(old(Contents()), files)
              case Err(e) => error == Some(e)
              case Ok(t) => if commitSucceeds || files == [] then error == None && Contents() == Flush(t)
                            else error == Some(DatabaseError)
      ensures error.Some? ==> Contents() == old(Contents()).(nextId := nextId) && nextId >= old(nextId)
    {
      ghost var s := Contents();
      if files == [] {
        FlushedIsFlush(s);
        return None;
      }
      for k := 0 to |files|
        invariant FilesSynced(s, files[..k]) == Ok(Contents())
        invariant committedRows == s.rows && committedTags == s.tags && committedCompanies == s.companies
        invariant nextId >= s.nextId
      {
        assert files[..k + 1][..k] == files[..k];
        error := SyncCatalogFile(files[k]);
        if error.Some? {
          RunStops(s, files, k + 1, error.value);
          Rollback();
          return;
        }
      }
      assert files[..|files|] == files;
      if !commitSucceeds {
        Rollback();
        return Some(DatabaseError);
      }
      Commit();
      error := None;
    }
  }

  lemma FlushedIsFlush(s: State)
    requires Flushed(s)
    ensures Flush(s) == s
  {
    assert FlushRows(s.rows) == s.rows;
  }

  /** The first error ends the run. */
  lemma {:induction false} RunStops(s: State, files: seq<File>, k: nat, e: SyncError)
    requires k <= |files| && FilesSynced(s, files[..k]) == Err(e)
    ensures FilesSynced(s, files) == Err(e)
    decreases |files| - k
  {
    if k == |files| {
      assert files[..k] == files;
    } else {
      assert files[..k + 1][..k] == files[..k];
      RunStops(s, files, k + 1, e);
    }
  }
}
