/**
 The SQLite store. Its rows hold timestamps as text, and its alert query compares the texts.
 The ghost field `logical` is the in-memory store that would hold the same data: every
 operation answers as that store does, except that instants outside the years 0 to 9999 are
 read back as the zero time and that the alert query selects and sorts by text.
 */
module SQLiteStore {
  import opened Types
  import opened Text
  import opened Timestamps
  import opened MemoryStore
  import opened Sorting

  datatype StateRow = StateRow(status: Status, lastCheckAt: string, lastStatusChangeAt: string,
                               consecutiveFailures: int, lastError: string)

  datatype AlertRow = AlertRow(id: int, siteName: string, alertType: AlertType, threshold: int, certSerial: string,
                               sentAt: string, notifier: string, status: SendStatus)

  datatype DomainRow = DomainRow(expiresAt: string, lastLookupAt: string, lastOkAt: string,
                                 source: string, error: string)

  function EncodeState(s: SiteState): StateRow {
    StateRow(s.status, FormatTS(s.lastCheckAt), FormatTS(s.lastStatusChangeAt), s.consecutiveFailures, s.lastError)
  }

  function EncodeAlert(a: AlertRecord): AlertRow {
    AlertRow(a.id, a.siteName, a.alertType, a.threshold, a.certSerial, FormatTS(a.sentAt), a.notifier, a.status)
  }

  function DecodeAlert(row: AlertRow): AlertRecord {
    AlertRecord(row.id, row.siteName, row.alertType, row.threshold, row.certSerial, ParseTS(row.sentAt),
                row.notifier, row.status)
  }

  function EncodeDomain(d: DomainCache): DomainRow {
    DomainRow(FormatTS(d.expiresAt), FormatTS(d.lastLookupAt), FormatTS(d.lastOkAt), d.source, d.error)
  }

  // ---- what comes back out: the same values, but for instants that RFC 3339 cannot write ----

  function ReadState(s: SiteState): SiteState {
    s.(lastCheckAt := ReadBack(s.lastCheckAt), lastStatusChangeAt := ReadBack(s.lastStatusChangeAt))
  }

  function ReadAlert(a: AlertRecord): AlertRecord {
    a.(sentAt := ReadBack(a.sentAt))
  }

  function ReadDomain(d: DomainCache): DomainCache {
    d.(expiresAt := ReadBack(d.expiresAt), lastLookupAt := ReadBack(d.lastLookupAt), lastOkAt := ReadBack(d.lastOkAt))
  }

  lemma ReadNothing()
    ensures ReadState(NO_STATE) == NO_STATE && ReadDomain(NO_CACHE) == NO_CACHE
  {
  }

  predicate LogInRange(alerts: seq<AlertRecord>) {
    forall a | a in alerts :: InRange(a.sentAt)
  }

  // ---- which records the query selects ----

  /** The records of a site and type whose text is not below the cutoff's text. */
  predicate TextSelected(a: AlertRecord, siteName: string, alertType: AlertType, since: Time) {
    a.siteName == siteName && a.alertType == alertType && !Less(FormatTS(a.sentAt), FormatTS(since))
  }

  function TextRecent(alerts: seq<AlertRecord>, siteName: string, alertType: AlertType,
      since: Time): (r: seq<AlertRecord>)
    ensures forall a :: a in r <==> a in alerts && TextSelected(a, siteName, alertType, since)
  {
    if alerts == [] then []
    else
      var last := alerts[|alerts| - 1];
      var before := alerts[..|alerts| - 1];
      assert alerts == before + [last];
      TextRecent(before, siteName, alertType, since) + if TextSelected(last, siteName, alertType, since) then [last]
          else []
  }

  /** A record on which the two stores disagree about a cutoff. */
  predicate Misjudged(a: AlertRecord, siteName: string, alertType: AlertType, since: Time) {
    a.siteName == siteName && a.alertType == alertType && (Inverted(a.sentAt, since) || Inverted(since, a.sentAt))
  }

  lemma MisjudgedExactly(a: AlertRecord, siteName: string, alertType: AlertType, since: Time)
    requires InRange(a.sentAt) && InRange(since)
    ensures Misjudged(a, siteName, alertType, since)
       <==> TextSelected(a, siteName, alertType, since) != Selected(a, siteName, alertType, since)
    ensures Misjudged(a, siteName, alertType, since) && a.sentAt != ZERO_TIME && since != ZERO_TIME
            ==> Seconds(a.sentAt) == Seconds(since)
  {
    hide FormatTS, Inverted;
    TextComparison(a.sentAt, since);
    if Inverted(a.sentAt, since) { InvertedIsEarlier(a.sentAt, since); }
    if Inverted(since, a.sentAt) { InvertedIsEarlier(since, a.sentAt); }
  }

  /**
   The two stores select the same records exactly when the log holds no record of the site and
   type whose instant is a decimal cut of the cutoff, or has it as a cut; such a record shares
   the cutoff's whole second.
   */
  lemma {:induction false} SameSelection(alerts: seq<AlertRecord>, siteName: string, alertType: AlertType, since: Time)
    requires InRange(since) && LogInRange(alerts)
    ensures TextRecent(alerts, siteName, alertType, since) == Recent(alerts, siteName, alertType, since)
       <==> !exists a | a in alerts :: Misjudged(a, siteName, alertType, since)
  {
    hide FormatTS, Inverted;
    var text, instant := TextRecent(alerts, siteName, alertType, since), Recent(alerts, siteName, alertType, since);
    forall a | a in alerts
      ensures Misjudged(a, siteName, alertType, since) <==> (a in text) != (a in instant)
    {
      MisjudgedExactly(a, siteName, alertType, since);
    }
    if alerts == [] {
    } else if !exists a | a in alerts :: Misjudged(a, siteName, alertType, since) {
      var before, last := alerts[..|alerts| - 1], alerts[|alerts| - 1];
      assert last in alerts && forall a | a in before :: a in alerts;
      SameSelection(before, siteName, alertType, since);
    }
  }

  // ---- in which order the query gives them ----

  /** `ORDER BY sent_at DESC` on the texts. */
  predicate TextDescending(out: seq<AlertRecord>) {
    forall i, j | 0 <= i < j < |out| :: !Less(FormatTS(out[i].sentAt), FormatTS(out[j].sentAt))
  }

  /** Some record of the answer is earlier than another but sorts after it. */
  predicate HasInversion(out: seq<AlertRecord>) {
    exists a, b | a in out && b in out :: Inverted(a.sentAt, b.sentAt)
  }

  /** Of an inverted pair the earlier record comes first. */
  lemma InversionShows(out: seq<AlertRecord>, a: AlertRecord, b: AlertRecord)
    requires TextDescending(out) && a in out && b in out && Inverted(a.sentAt, b.sentAt)
    requires InRange(a.sentAt) && InRange(b.sentAt)
    ensures !SortedBy(out, NotSentBefore)
  {
    hide FormatTS, Inverted, InRange;
    InvertedIsEarlier(a.sentAt, b.sentAt);
    TextOrderExactly(a.sentAt, b.sentAt);
    LessIsTotal(FormatTS(a.sentAt), FormatTS(b.sentAt));
    var i :| 0 <= i < |out| && out[i] == a;
    var j :| 0 <= j < |out| && out[j] == b;
    assert i < j && !NotSentBefore(out[i], out[j]);
  }

  /** An answer sorted by text is newest first exactly when none of its records is a decimal cut of another. */
  lemma NewestFirstExactly(out: seq<AlertRecord>)
    requires TextDescending(out) && LogInRange(out)
    ensures SortedBy(out, NotSentBefore) <==> !HasInversion(out)
  {
    hide FormatTS, Inverted;
    if !SortedBy(out, NotSentBefore) {
      var i, j :| 0 <= i < j < |out| && !NotSentBefore(out[i], out[j]);
      TextOrderExactly(out[i].sentAt, out[j].sentAt);
      assert out[i] in out && out[j] in out;
    }
    if a, b :| a in out && b in out && Inverted(a.sentAt, b.sentAt) {
      InversionShows(out, a, b);
    }
  }

  /**
   What the SQLite store answers is what the in-memory store may answer (the selected records,
   newest first) exactly when no record is misjudged against the cutoff and no selected record
   is a decimal cut of another.
   */
  lemma SameAnswer(alerts: seq<AlertRecord>, siteName: string, alertType: AlertType, since: Time, out: seq<AlertRecord>)
    requires InRange(since) && LogInRange(alerts)
    requires multiset(out) == multiset(TextRecent(alerts, siteName, alertType, since)) && TextDescending(out)
    ensures multiset(out) == multiset(Recent(alerts, siteName, alertType, since)) && SortedBy(out, NotSentBefore)
       <==> (forall a | a in alerts :: !Misjudged(a, siteName, alertType, since))
            && !HasInversion(Recent(alerts, siteName, alertType, since))
  {
    hide FormatTS, Inverted;
    var text, instant := TextRecent(alerts, siteName, alertType, since), Recent(alerts, siteName, alertType, since);
    SameMembers(out, text);
    NewestFirstExactly(out);
    SameSelection(alerts, siteName, alertType, since);
    if multiset(out) == multiset(instant) {
      SameMembers(out, instant);
      forall a | a in alerts ensures !Misjudged(a, siteName, alertType, since) {
        MisjudgedExactly(a, siteName, alertType, since);
      }
    }
  }

  /** With a record at a whole second and one later in that second an answer is never newest first. */
  lemma WholeSecondComesFirst(out: seq<AlertRecord>, a: AlertRecord, b: AlertRecord)
    requires TextDescending(out) && LogInRange(out) && a in out && b in out
    requires a.sentAt != ZERO_TIME && Nanos(a.sentAt) == 0 && a.sentAt < b.sentAt < a.sentAt + SECOND
    ensures !SortedBy(out, NotSentBefore)
  {
    hide FormatTS, IsCutOf;
    WholeSecondIsCut(a.sentAt, b.sentAt);
    if b.sentAt == ZERO_TIME {
      assert Inverted(a.sentAt, b.sentAt);
    }
    NewestFirstExactly(out);
  }

  predicate RowNotBefore(a: AlertRow, b: AlertRow) {
    !Less(a.sentAt, b.sentAt)
  }

  lemma RowOrderIsTotal()
    ensures TotalPreorder(RowNotBefore)
  {
    forall a: AlertRow, b: AlertRow ensures RowNotBefore(a, b) || RowNotBefore(b, a) {
      LessIsTotal(a.sentAt, b.sentAt);
    }
    forall a: AlertRow, b: AlertRow, c: AlertRow | RowNotBefore(a, b) && RowNotBefore(b, c) ensures RowNotBefore(a, c) {
      if Less(a.sentAt, c.sentAt) {
        LessIsTotal(a.sentAt, b.sentAt);
        LessIsTotal(b.sentAt, c.sentAt);
        if a.sentAt != b.sentAt && b.sentAt != c.sentAt {
          LessIsTransitive(c.sentAt, b.sentAt, a.sentAt);
          LessIsTotal(a.sentAt, c.sentAt);
        }
      }
    }
  }

  class SQLite {
    var siteState: map<string, StateRow>
    var alertLog: seq<AlertRow>
    var domainCache: map<string, DomainRow>
    var nextID: int
    ghost var logical: Store

    ghost predicate Valid()
      reads this
    {
      && siteState.Keys == logical.states.Keys
      && (forall n | n in siteState ::
            siteState[n] == EncodeState(logical.states[n]) && logical.states[n].siteName == n)
      && alertLog == EncodeAll(logical.alerts)
      && domainCache.Keys == logical.domains.Keys
      && (forall n | n in domainCache ::
            domainCache[n] == EncodeDomain(logical.domains[n]) && logical.domains[n].siteName == n)
      && nextID == logical.nextID
    }

    constructor ()
      ensures Valid() && logical == EMPTY_STORE
    {
      siteState, alertLog, domainCache, nextID := map[], [], map[], 0;
      logical := EMPTY_STORE;
    }

    method GetSiteState(name: string) returns (state: SiteState, ok: bool)
      requires Valid()
      ensures state == ReadState(StateOf(logical.states, name)) && ok == (name in logical.states)
    {
      hide FormatTS, ParseTS, ReadBack;
      ok := name in siteState;
      state := NO_STATE;
      ReadNothing();
      if ok {
        var row := siteState[name];
        state := SiteState(name, row.status, ParseTS(row.lastCheckAt), ParseTS(row.lastStatusChangeAt),
                           row.consecutiveFailures, row.lastError);
        RoundTripExactly(logical.states[name].lastCheckAt);
        RoundTripExactly(logical.states[name].lastStatusChangeAt);
      }
    }

    method UpsertSiteState(s: SiteState)
      requires Valid()
      modifies this
      ensures Valid()
      ensures logical == old(logical).(states := old(logical).states[s.siteName := s])
    {
      hide FormatTS;
      siteState := siteState[s.siteName := EncodeState(s)];
      logical := logical.(states := logical.states[s.siteName := s]);
    }

    method RecordAlert(a: AlertRecord)
      requires Valid()
      modifies this
      ensures Valid() && logical == Recorded(old(logical), a)
    {
      hide FormatTS;
      var status := a.status;
      if status == Unset {
        status := Sent;
      }
      nextID := nextID + 1;
      alertLog := alertLog + [EncodeAlert(a.(id := nextID, status := status))];
      logical := Recorded(logical, a);
    }

    /** The chosen rows are those of the records that the text comparison selects; the answer decodes them. */
    method FindRecentAlerts(siteName: string, alertType: AlertType, since: Time)
      returns (out: seq<AlertRecord>, ghost rows: seq<AlertRow>)
      requires Valid()
      ensures multiset(rows) == multiset(EncodeAll(TextRecent(logical.alerts, siteName, alertType, since)))
      ensures SortedBy(rows, RowNotBefore) && out == DecodeAll(rows)
      ensures LogInRange(logical.alerts) ==>
                multiset(out) == multiset(TextRecent(logical.alerts, siteName, alertType, since)) && TextDescending(out)
    {
      hide FormatTS, ParseTS, TextRecent, RowNotBefore;
      var found := SelectRows(siteName, alertType, FormatTS(since), since);
      RowOrderIsTotal();
      var sorted := Sort(found, RowNotBefore);
      rows := sorted;
      out := DecodeRows(sorted);
      if LogInRange(logical.alerts) {
        InRangeAnswer(sorted, TextRecent(logical.alerts, siteName, alertType, since));
      }
    }

    /** The WHERE clause, row by row. */
    method SelectRows(siteName: string, alertType: AlertType, cutoff: string, ghost since: Time)
        returns (found: seq<AlertRow>)
      requires Valid() && cutoff == FormatTS(since)
      ensures found == EncodeAll(TextRecent(logical.alerts, siteName, alertType, since))
    {
      hide FormatTS, ParseTS;
      found := [];
      for i := 0 to |alertLog|
        invariant found == EncodeAll(TextRecent(logical.alerts[..i], siteName, alertType, since))
      {
        var row := alertLog[i];
        NextSelected(logical.alerts[..i + 1], siteName, alertType, since);
        assert logical.alerts[..i + 1][..i] == logical.alerts[..i];
        if row.siteName == siteName && row.alertType == alertType && !Less(row.sentAt, cutoff) {
          found := found + [row];
        }
      }
      assert logical.alerts[..|alertLog|] == logical.alerts;
    }

    method GetDomainCache(name: string) returns (cache: DomainCache, ok: bool)
      requires Valid()
      ensures cache == ReadDomain(CacheOf(logical.domains, name)) && ok == (name in logical.domains)
    {
      hide FormatTS, ParseTS, ReadBack;
      ok := name in domainCache;
      cache := NO_CACHE;
      ReadNothing();
      if ok {
        var row := domainCache[name];
        cache := DomainCache(name, ParseTS(row.expiresAt), ParseTS(row.lastLookupAt), ParseTS(row.lastOkAt),
                             row.source, row.error);
        RoundTripExactly(logical.domains[name].expiresAt);
        RoundTripExactly(logical.domains[name].lastLookupAt);
        RoundTripExactly(logical.domains[name].lastOkAt);
      }
    }

    method UpsertDomainCache(d: DomainCache)
      requires Valid()
      modifies this
      ensures Valid()
      ensures logical == old(logical).(domains := old(logical).domains[d.siteName := d])
    {
      hide FormatTS;
      domainCache := domainCache[d.siteName := EncodeDomain(d)];
      logical := logical.(domains := logical.domains[d.siteName := d]);
    }
  }

  /** The loop over the rows of the answer. */
  method DecodeRows(rows: seq<AlertRow>) returns (out: seq<AlertRecord>)
    ensures out == DecodeAll(rows)
  {
    hide ParseTS;
    out := [];
    for i := 0 to |rows|
      invariant out == DecodeAll(rows[..i])
    {
      assert rows[..i + 1][..i] == rows[..i];
      out := out + [DecodeAlert(rows[i])];
    }
    assert rows[..|rows|] == rows;
  }

  function EncodeAll(alerts: seq<AlertRecord>): seq<AlertRow> {
    seq(|alerts|, i requires 0 <= i < |alerts| => EncodeAlert(alerts[i]))
  }

  /** One record more adds its row if it is selected. */
  lemma NextSelected(alerts: seq<AlertRecord>, siteName: string, alertType: AlertType, since: Time)
    requires alerts != []
    ensures var last := alerts[|alerts| - 1];
            EncodeAll(TextRecent(alerts, siteName, alertType, since))
            == EncodeAll(TextRecent(alerts[..|alerts| - 1], siteName, alertType, since))
               + if TextSelected(last, siteName, alertType, since) then [EncodeAlert(last)] else []
  {
    hide EncodeAlert, TextSelected;
  }

  /** Encoding and decoding again reads every record back. */
  lemma EncodedThenDecoded(alerts: seq<AlertRecord>)
    ensures DecodeAll(EncodeAll(alerts)) == seq(|alerts|, i requires 0 <= i < |alerts| => ReadAlert(alerts[i]))
  {
    hide FormatTS, ParseTS, ReadBack;
    var read := seq(|alerts|, i requires 0 <= i < |alerts| => ReadAlert(alerts[i]));
    forall i | 0 <= i < |alerts| ensures DecodeAlert(EncodeAll(alerts)[i]) == read[i] {
      RoundTripExactly(alerts[i].sentAt);
    }
    DecodedExactly(EncodeAll(alerts), read);
  }

  /** When all records can be read back, the answer has the selected records in descending order of their texts. */
  lemma InRangeAnswer(rows: seq<AlertRow>, chosen: seq<AlertRecord>)
    requires multiset(rows) == multiset(EncodeAll(chosen)) && SortedBy(rows, RowNotBefore) && LogInRange(chosen)
    ensures multiset(DecodeAll(rows)) == multiset(chosen) && TextDescending(DecodeAll(rows))
  {
    hide FormatTS, ParseTS, InRange;
    assert seq(|chosen|, i requires 0 <= i < |chosen| => ReadAlert(chosen[i])) == chosen by {
      forall i | 0 <= i < |chosen| ensures ReadAlert(chosen[i]) == chosen[i] {
        assert chosen[i] in chosen;
      }
    }
    EncodedThenDecoded(chosen);
    DecodePermutes(rows, EncodeAll(chosen));
    forall row | row in EncodeAll(chosen) ensures FormatTS(DecodeAlert(row).sentAt) == row.sentAt {
      var i :| 0 <= i < |chosen| && EncodeAll(chosen)[i] == row;
      assert chosen[i] in chosen;
      RoundTripExactly(chosen[i].sentAt);
    }
    NewestFirst(rows, EncodeAll(chosen));
  }

  ghost predicate Decodes(rows: seq<AlertRow>, alerts: seq<AlertRecord>) {
    |rows| == |alerts| && forall i | 0 <= i < |rows| :: DecodeAlert(rows[i]) == alerts[i]
  }

  function DecodeAll(rows: seq<AlertRow>): seq<AlertRecord> {
    if rows == [] then [] else DecodeAll(rows[..|rows| - 1]) + [DecodeAlert(rows[|rows| - 1])]
  }

  lemma {:induction false} DecodedExactly(rows: seq<AlertRow>, alerts: seq<AlertRecord>)
    requires Decodes(rows, alerts)
    ensures DecodeAll(rows) == alerts
  {
    if rows == [] {
    } else {
      DecodedExactly(rows[..|rows| - 1], alerts[..|rows| - 1]);
    }
  }

  /** The rows hold the texts that their own instants are written as. */
  predicate Canonical(rows: seq<AlertRow>) {
    forall row | row in rows :: FormatTS(DecodeAlert(row).sentAt) == row.sentAt
  }

  lemma NewestFirst(sorted: seq<AlertRow>, rows: seq<AlertRow>)
    requires multiset(sorted) == multiset(rows) && Canonical(rows) && SortedBy(sorted, RowNotBefore)
    ensures TextDescending(DecodeAll(sorted))
  {
    hide FormatTS, ParseTS;
    DecodedExactly(sorted, seq(|sorted|, i requires 0 <= i < |sorted| => DecodeAlert(sorted[i])));
    forall i | 0 <= i < |sorted| ensures FormatTS(DecodeAlert(sorted[i]).sentAt) == sorted[i].sentAt {
      assert sorted[i] in multiset(sorted);
    }
    forall i, j | 0 <= i < j < |sorted| ensures !Less(sorted[i].sentAt, sorted[j].sentAt) {
      assert RowNotBefore(sorted[i], sorted[j]);
    }
  }

  lemma {:induction false} DecodeAppend(rows: seq<AlertRow>, more: seq<AlertRow>)
    ensures DecodeAll(rows + more) == DecodeAll(rows) + DecodeAll(more)
  {
    if more == [] {
      assert rows + more == rows;
    } else {
      var init := more[..|more| - 1];
      assert (rows + more)[..|rows + more| - 1] == rows + init;
      DecodeAppend(rows, init);
    }
  }

  /** Taking one row out takes its record out of what is decoded. */
  lemma DecodeWithout(rows: seq<AlertRow>, k: nat)
    requires k < |rows|
    ensures var rest := rows[..k] + rows[k + 1..];
            && multiset(rest) == multiset(rows) - multiset{rows[k]}
            && multiset(DecodeAll(rows)) == multiset(DecodeAll(rest)) + multiset{DecodeAlert(rows[k])}
  {
    hide DecodeAlert;
    var before, row, after := rows[..k], rows[k], rows[k + 1..];
    assert rows == before + [row] + after;
    DecodeAppend(before, after);
    DecodeAppend(before, [row]);
    DecodeAppend(before + [row], after);
    assert DecodeAll([row]) == [DecodeAlert(row)];
  }

  /** Decoding the rows in another order decodes the same records. */
  lemma {:induction false} DecodePermutes(p: seq<AlertRow>, q: seq<AlertRow>)
    requires multiset(p) == multiset(q)
    ensures multiset(DecodeAll(p)) == multiset(DecodeAll(q))
  {
    hide DecodeAlert;
    if p == [] {
      assert |multiset(q)| == |multiset(p)| == 0;
      assert q == [];
    } else {
      var n := |p| - 1;
      assert p[n] in multiset(p);
      var k :| 0 <= k < |q| && q[k] == p[n];
      DecodeWithout(p, n);
      DecodeWithout(q, k);
      assert p[..n] + p[n + 1..] == p[..n];
      DecodePermutes(p[..n], q[..k] + q[k + 1..]);
    }
  }
}
