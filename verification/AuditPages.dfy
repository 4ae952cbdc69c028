/** Reading the audit table page by page: consecutive accepted pages form one accepted chain,
    and an untampered table always reads back in full. */
module AuditPages {
  import opened Text
  import opened LinkedLog
  import opened AuditChain

  const MAX_EXPORT_ROWS := 10_000
  const DEFAULT_ROWS := 1000

  /** A table row. Time and kind are stored beside the event that also holds them; the two hash
      columns hold raw bytes. */
  datatype Row = Row(sequence: int, eventID: string, occurredAt: int, kind: Kind, event: AuditEvent,
                     previousHash: seq<byte>, eventHash: seq<byte>)

  /** The table in primary-key order. */
  predicate IsTable(rows: seq<Row>)
  {
    forall i, j :: 0 <= i < j < |rows| ==> rows[i].sequence < rows[j].sequence
  }

  /** How a row becomes a record, and how a page of records is verified against the hash and the
      sequence number before it. */
  datatype Reader = Reader(scan: Row -> Option<AuditRecord>, hashOf: AuditRecord -> seq<byte>, accept: (seq<AuditRecord>, seq<byte>, int) -> bool)

  function Scan(row: Row): Option<AuditRecord>
  {
    if row.event.occurredAt == row.occurredAt && row.event.kind == row.kind && |row.eventHash| == 32 && LinkHash(row.previousHash) then
      Some(AuditRecord(row.sequence, row.eventID, row.event, Hex(row.previousHash), Hex(row.eventHash)))
    else None
  }

  /** The reader of the audit table. */
  function TableReader(hash: Hasher): Reader
  {
    Reader(Scan, HashOf, (records, previous, sequence) => Accepted(hash, records, previous, sequence))
  }

  /** The rows behind the cursor, at most `limit` of them. */
  function Query(rows: seq<Row>, after: int, limit: nat): seq<Row>
  {
    if rows == [] || limit == 0 then []
    else if rows[0].sequence > after then [rows[0]] + Query(rows[1..], after, limit - 1)
    else Query(rows[1..], after, limit)
  }

  function Find(rows: seq<Row>, sequence: int): Option<Row>
  {
    if rows == [] then None
    else if rows[0].sequence == sequence then Some(rows[0])
    else Find(rows[1..], sequence)
  }

  function ScanAll(d: Reader, rows: seq<Row>): Option<seq<AuditRecord>>
  {
    if rows == [] then Some([])
    else
      var first, rest := d.scan(rows[0]), ScanAll(d, rows[1..]);
      if first.None? || rest.None? then None else Some([first.value] + rest.value)
  }

  /** The hash stored in the row before the cursor. */
  function HashBefore(rows: seq<Row>, after: int): Option<seq<byte>>
  {
    if after > 1 then
      var row := Find(rows, after - 1);
      if row.None? then None else Some(row.value.eventHash)
    else Some([])
  }

  /** The hash the page must link to: the verified cursor row's hash, or nothing at the start. */
  function CursorHash(d: Reader, rows: seq<Row>, after: int): Option<seq<byte>>
  {
    if after == 0 then Some([])
    else
      var row, previous := Find(rows, after), HashBefore(rows, after);
      if row.None? || previous.None? then None
      else
        var cursor := d.scan(row.value);
        if cursor.None? || !d.accept([cursor.value], previous.value, after - 1) then None
        else Some(row.value.eventHash)
  }

  function Count(limit: int): nat
  {
    if limit <= 0 then DEFAULT_ROWS else limit
  }

  /** One page behind `after`; None models every error return. */
  function ReadPage(d: Reader, rows: seq<Row>, after: int, limit: int): Option<seq<AuditRecord>>
  {
    if after < 0 || Count(limit) > MAX_EXPORT_ROWS then None
    else
      var previous, records := CursorHash(d, rows, after), ScanAll(d, Query(rows, after, Count(limit)));
      if previous.None? || records.None? || !d.accept(records.value, previous.value, after) then None
      else records
  }

  /** Pages read one after the other, each behind the last record of the previous one. */
  function ReadPages(d: Reader, rows: seq<Row>, limits: seq<int>): Option<seq<AuditRecord>>
  {
    if limits == [] then Some([])
    else
      var sofar := ReadPages(d, rows, limits[..|limits| - 1]);
      if sofar.None? then None
      else
        var page := ReadPage(d, rows, |sofar.value|, limits[|limits| - 1]);
        if page.None? then None else Some(sofar.value + page.value)
  }

  // ----- what the audit table's reader provides

  /** Scanning keeps the row's hash. */
  ghost predicate KeepsHash(d: Reader)
  {
    forall row :: d.scan(row).Some? ==> d.hashOf(d.scan(row).value) == row.eventHash
  }

  ghost predicate KeepsSequence(d: Reader)
  {
    forall row :: d.scan(row).Some? ==> d.scan(row).value.sequence == row.sequence
  }

  lemma TableReaderKeeps(hash: Hasher)
    ensures KeepsHash(TableReader(hash)) && KeepsSequence(TableReader(hash))
  {
    forall row | Scan(row).Some? ensures HashOf(Scan(row).value) == row.eventHash {
      DecodeHexDigest(row.eventHash);
    }
  }

  // ----- accepted pages compose

  lemma {:induction false} QueryFromTable(rows: seq<Row>, after: int, limit: nat, row: Row)
    requires row in Query(rows, after, limit)
    ensures row in rows
  {
    var rest := Query(rows[1..], after, if rows[0].sequence > after then limit - 1 else limit);
    if row in rest {
      QueryFromTable(rows[1..], after, if rows[0].sequence > after then limit - 1 else limit, row);
    }
  }

  lemma {:induction false} FindUnique(rows: seq<Row>, row: Row)
    requires IsTable(rows) && row in rows
    ensures Find(rows, row.sequence) == Some(row)
  {
    if rows[0] != row {
      var i :| 0 <= i < |rows| && rows[i] == row;
      assert row == rows[1..][i - 1];
      FindUnique(rows[1..], row);
    }
  }

  ghost predicate IsRowOf(d: Reader, rows: seq<Row>, r: AuditRecord)
  {
    exists row :: row in rows && d.scan(row) == Some(r)
  }

  /** The records read so far are rows of the table, numbered from one. */
  ghost predicate FromTable(d: Reader, rows: seq<Row>, records: seq<AuditRecord>)
  {
    forall i :: 0 <= i < |records| ==> IsRowOf(d, rows, records[i]) && records[i].sequence == i + 1
  }

  lemma CursorIsHead(d: Reader, rows: seq<Row>, records: seq<AuditRecord>)
    requires IsTable(rows) && KeepsHash(d) && KeepsSequence(d)
    requires FromTable(d, rows, records) && CursorHash(d, rows, |records|).Some?
    ensures CursorHash(d, rows, |records|).value == Head(d.hashOf, records, [])
  {
    if records != [] {
      var last := records[|records| - 1];
      assert IsRowOf(d, rows, last);
      var row :| row in rows && d.scan(row) == Some(last);
      FindUnique(rows, row);
    }
  }

  lemma {:induction false} ScannedRow(d: Reader, selected: seq<Row>, page: seq<AuditRecord>, r: AuditRecord)
    requires ScanAll(d, selected) == Some(page) && r in page
    ensures IsRowOf(d, selected, r)
  {
    if r != page[0] {
      ScannedRow(d, selected[1..], page[1..], r);
      var row :| row in selected[1..] && d.scan(row) == Some(r);
      assert row in selected;
    } else {
      assert selected[0] in selected && d.scan(selected[0]) == Some(r);
    }
  }

  lemma PageRow(d: Reader, rows: seq<Row>, n: nat, limit: int, r: AuditRecord)
    requires ReadPage(d, rows, n, limit).Some? && r in ReadPage(d, rows, n, limit).value
    ensures IsRowOf(d, rows, r)
  {
    var selected := Query(rows, n, Count(limit));
    ScannedRow(d, selected, ReadPage(d, rows, n, limit).value, r);
    var row :| row in selected && d.scan(row) == Some(r);
    QueryFromTable(rows, n, Count(limit), row);
  }

  lemma AcceptedSequences(hash: Hasher, rs: seq<AuditRecord>, previous: seq<byte>, sequence: int)
    requires Accepted(hash, rs, previous, sequence)
    ensures forall i :: 0 <= i < |rs| ==> rs[i].sequence == sequence + i + 1
  {
    forall i | 0 <= i < |rs| ensures rs[i].sequence == sequence + i + 1 {
      LinksAt(RecordCheck(hash), HashOf, rs, previous, sequence, i);
    }
  }

  lemma AppendedFromTable(d: Reader, rows: seq<Row>, records: seq<AuditRecord>, page: seq<AuditRecord>)
    requires FromTable(d, rows, records)
    requires forall i :: 0 <= i < |page| ==> IsRowOf(d, rows, page[i]) && page[i].sequence == |records| + i + 1
    ensures FromTable(d, rows, records + page)
  {
    forall i | 0 <= i < |records + page| ensures IsRowOf(d, rows, (records + page)[i]) && (records + page)[i].sequence == i + 1 {
      if i >= |records| {
        assert IsRowOf(d, rows, page[i - |records|]);
      }
    }
  }

  lemma PageFollows(d: Reader, rows: seq<Row>, records: seq<AuditRecord>, limit: int, page: seq<AuditRecord>)
    requires IsTable(rows) && KeepsHash(d) && KeepsSequence(d) && FromTable(d, rows, records)
    requires ReadPage(d, rows, |records|, limit) == Some(page)
    ensures d.accept(page, Head(d.hashOf, records, []), |records|)
    ensures forall i :: 0 <= i < |page| ==> IsRowOf(d, rows, page[i])
  {
    CursorIsHead(d, rows, records);
    forall i | 0 <= i < |page| ensures IsRowOf(d, rows, page[i]) {
      PageRow(d, rows, |records|, limit, page[i]);
    }
  }

  lemma ExtendRead(hash: Hasher, d: Reader, rows: seq<Row>, records: seq<AuditRecord>, page: seq<AuditRecord>)
    requires Accepted(hash, records, [], 0) && FromTable(d, rows, records)
    requires Accepted(hash, page, Head(HashOf, records, []), |records|)
    requires forall i :: 0 <= i < |page| ==> IsRowOf(d, rows, page[i])
    ensures Accepted(hash, records + page, [], 0) && FromTable(d, rows, records + page)
  {
    AcceptedConcat(hash, records, page, [], 0);
    AcceptedSequences(hash, page, Head(HashOf, records, []), |records|);
    AppendedFromTable(d, rows, records, page);
  }

  lemma PageExtends(hash: Hasher, rows: seq<Row>, records: seq<AuditRecord>, limit: int, page: seq<AuditRecord>)
    requires IsTable(rows) && Accepted(hash, records, [], 0) && FromTable(TableReader(hash), rows, records)
    requires ReadPage(TableReader(hash), rows, |records|, limit) == Some(page)
    ensures Accepted(hash, records + page, [], 0) && FromTable(TableReader(hash), rows, records + page)
  {
    TableReaderKeeps(hash);
    PageFollows(TableReader(hash), rows, records, limit, page);
    ExtendRead(hash, TableReader(hash), rows, records, page);
  }

  /** Whatever the page sizes, pages that are accepted one after the other form one accepted
      chain of table rows, starting at sequence one. */
  lemma {:induction false} AcceptedPagesFormOneChain(hash: Hasher, rows: seq<Row>, limits: seq<int>)
    requires IsTable(rows) && ReadPages(TableReader(hash), rows, limits).Some?
    ensures var all := ReadPages(TableReader(hash), rows, limits).value;
            Accepted(hash, all, [], 0) && FromTable(TableReader(hash), rows, all)
  {
    if limits != [] {
      var n := |limits| - 1;
      AcceptedPagesFormOneChain(hash, rows, limits[..n]);
      var sofar := ReadPages(TableReader(hash), rows, limits[..n]).value;
      PageExtends(hash, rows, sofar, limits[n], ReadPage(TableReader(hash), rows, |sofar|, limits[n]).value);
    }
  }

  // ----- an untampered table reads back in full

  /** The rows a writer leaves behind: numbered from one, and scanning back to the chain. */
  ghost predicate Stores(d: Reader, rows: seq<Row>, chain: seq<AuditRecord>)
  {
    |rows| == |chain| && forall i :: 0 <= i < |rows| ==> rows[i].sequence == i + 1 && d.scan(rows[i]) == Some(chain[i])
  }

  function Min(a: int, b: int): int
  {
    if a <= b then a else b
  }

  lemma {:induction false} QueryNumbered(rows: seq<Row>, base: int, after: int, limit: nat)
    requires forall i :: 0 <= i < |rows| ==> rows[i].sequence == base + i + 1
    requires base <= after <= base + |rows|
    ensures Query(rows, after, limit) == rows[after - base..Min(after - base + limit, |rows|)]
  {
    if rows != [] && limit > 0 {
      if after == base {
        QueryNumbered(rows[1..], base + 1, base + 1, limit - 1);
        QueryAfter(rows[1..], base, base + 1, limit - 1);
        assert rows[0..Min(limit, |rows|)] == [rows[0]] + rows[1..][0..Min(limit - 1, |rows| - 1)];
      } else {
        QueryNumbered(rows[1..], base + 1, after, limit);
      }
    }
  }

  /** A cursor below every row selects the same rows as one just below the first. */
  lemma {:induction false} QueryAfter(rows: seq<Row>, low: int, high: int, limit: nat)
    requires low <= high && forall i :: 0 <= i < |rows| ==> rows[i].sequence > high
    ensures Query(rows, low, limit) == Query(rows, high, limit)
  {
    if rows != [] && limit > 0 {
      QueryAfter(rows[1..], low, high, limit - 1);
    }
  }

  lemma {:induction false} ScanAllStored(d: Reader, rows: seq<Row>, records: seq<AuditRecord>)
    requires |rows| == |records| && forall i :: 0 <= i < |rows| ==> d.scan(rows[i]) == Some(records[i])
    ensures ScanAll(d, rows) == Some(records)
  {
    if rows != [] {
      ScanAllStored(d, rows[1..], records[1..]);
      assert records == [records[0]] + records[1..];
    }
  }

  lemma AcceptedStretch(hash: Hasher, chain: seq<AuditRecord>, i: nat, j: nat)
    requires Accepted(hash, chain, [], 0) && i <= j <= |chain|
    ensures Accepted(hash, chain[i..j], Head(HashOf, chain[..i], []), i)
  {
    LinksStretch(RecordCheck(hash), HashOf, chain, i, j);
    if i > 0 {
      HashOfIsLinkHash(chain[i - 1]);
    }
  }

  lemma {:induction false} FindNumbered(rows: seq<Row>, base: int, k: int)
    requires forall i :: 0 <= i < |rows| ==> rows[i].sequence == base + i + 1
    requires base < k <= base + |rows|
    ensures Find(rows, k) == Some(rows[k - base - 1])
  {
    if k > base + 1 {
      FindNumbered(rows[1..], base + 1, k);
    }
  }

  lemma StoredRow(d: Reader, rows: seq<Row>, chain: seq<AuditRecord>, k: nat)
    requires KeepsHash(d) && Stores(d, rows, chain) && 0 < k <= |chain|
    ensures Find(rows, k) == Some(rows[k - 1]) && d.scan(rows[k - 1]) == Some(chain[k - 1])
    ensures Head(d.hashOf, chain[..k], []) == rows[k - 1].eventHash
  {
    FindNumbered(rows, 0, k);
    HeadOfPrefix(d.hashOf, chain, k, []);
    HashKept(d, rows[k - 1], chain[k - 1]);
  }

  lemma HashKept(d: Reader, row: Row, r: AuditRecord)
    requires KeepsHash(d) && d.scan(row) == Some(r)
    ensures d.hashOf(r) == row.eventHash
  {
  }

  lemma StoredCursor(d: Reader, rows: seq<Row>, chain: seq<AuditRecord>, after: nat)
    requires KeepsHash(d) && Stores(d, rows, chain) && after <= |chain|
    requires after > 0 ==> d.accept(chain[after - 1..after], Head(d.hashOf, chain[..after - 1], []), after - 1)
    ensures CursorHash(d, rows, after) == Some(Head(d.hashOf, chain[..after], []))
  {
    if after > 0 {
      StoredRow(d, rows, chain, after);
      assert chain[after - 1..after] == [chain[after - 1]];
      if after > 1 {
        StoredRow(d, rows, chain, after - 1);
      }
    }
  }

  lemma StoredQuery(d: Reader, rows: seq<Row>, chain: seq<AuditRecord>, after: nat, count: nat)
    requires Stores(d, rows, chain) && after <= |chain|
    ensures ScanAll(d, Query(rows, after, count)) == Some(chain[after..Min(after + count, |chain|)])
  {
    var end := Min(after + count, |chain|);
    QueryNumbered(rows, 0, after, count);
    ScanAllStored(d, rows[after..end], chain[after..end]);
  }

  lemma StoredPage(d: Reader, rows: seq<Row>, chain: seq<AuditRecord>, after: nat, end: nat, limit: int)
    requires KeepsHash(d) && Stores(d, rows, chain)
    requires after <= |chain| && limit <= MAX_EXPORT_ROWS && end == Min(after + Count(limit), |chain|)
    requires after > 0 ==> d.accept(chain[after - 1..after], Head(d.hashOf, chain[..after - 1], []), after - 1)
    requires d.accept(chain[after..end], Head(d.hashOf, chain[..after], []), after)
    ensures ReadPage(d, rows, after, limit) == Some(chain[after..end])
  {
    StoredCursor(d, rows, chain, after);
    StoredQuery(d, rows, chain, after, Count(limit));
  }

  lemma StoredRowsReadBack(hash: Hasher, rows: seq<Row>, chain: seq<AuditRecord>, after: nat, limit: int)
    requires Stores(TableReader(hash), rows, chain) && Accepted(hash, chain, [], 0)
    requires after <= |chain| && limit <= MAX_EXPORT_ROWS
    ensures ReadPage(TableReader(hash), rows, after, limit) == Some(chain[after..Min(after + Count(limit), |chain|)])
  {
    var end := Min(after + Count(limit), |chain|);
    TableReaderKeeps(hash);
    if after > 0 {
      AcceptedStretch(hash, chain, after - 1, after);
    }
    AcceptedStretch(hash, chain, after, end);
    StoredPage(TableReader(hash), rows, chain, after, end, limit);
  }

  // ----- what the writer leaves behind

  /** The row inserted for a record; the time column keeps whole microseconds. */
  function RowOf(r: AuditRecord): Row
  {
    var previous := DecodeHash(r.previousHash, true);
    Row(r.sequence, r.eventID, NormalizeTime(r.event.occurredAt), r.event.kind, r.event,
        if previous.Some? then previous.value else [], HashOf(r))
  }

  function Table(chain: seq<AuditRecord>): seq<Row>
  {
    seq(|chain|, i requires 0 <= i < |chain| => RowOf(chain[i]))
  }

  /** An inserted record scans back exactly when its time is in whole microseconds. */
  lemma InsertedRowScansExactly(hash: Hasher, r: AuditRecord, previous: seq<byte>)
    requires RecordOk(hash, r, previous, r.sequence)
    ensures Scan(RowOf(r)) == if Aligned(r) then Some(r) else None
  {
    HexOfUnhex(r.eventHash);
    if r.previousHash != "" {
      HexOfUnhex(r.previousHash);
    }
  }

  /** Reading back what was written: any cursor and limit within bounds return exactly that stretch of
      an accepted chain whose times are in whole microseconds. */
  lemma StoredChainReadsBack(hash: Hasher, chain: seq<AuditRecord>, after: nat, limit: int)
    requires Accepted(hash, chain, [], 0) && forall i :: 0 <= i < |chain| ==> Aligned(chain[i])
    requires after <= |chain| && limit <= MAX_EXPORT_ROWS
    ensures ReadPage(TableReader(hash), Table(chain), after, limit) == Some(chain[after..Min(after + Count(limit), |chain|)])
  {
    var rows := Table(chain);
    forall i | 0 <= i < |rows| ensures rows[i].sequence == i + 1 && Scan(rows[i]) == Some(chain[i]) {
      LinksAt(RecordCheck(hash), HashOf, chain, [], 0, i);
      InsertedRowScansExactly(hash, chain[i], Head(HashOf, chain[..i], []));
    }
    StoredRowsReadBack(hash, rows, chain, after, limit);
  }

  /** The log of any recordable events reads back in full, page by page. */
  lemma WrittenLogReadsBack(hash: Hasher, events: seq<AuditEvent>, after: nat, limit: int)
    requires (forall i :: 0 <= i < |events| ==> Recordable(events[i])) && after <= |events| && limit <= MAX_EXPORT_ROWS
    ensures var chain := Append(hash, [], events);
            ReadPage(TableReader(hash), Table(chain), after, limit) == Some(chain[after..Min(after + Count(limit), |chain|)])
  {
    var chain := Append(hash, [], events);
    AppendKeepsAccepted(hash, [], events);
    forall i | 0 <= i < |chain| ensures Aligned(chain[i]) {
      AppendAddsEvents(hash, [], events, i);
    }
    StoredChainReadsBack(hash, chain, after, limit);
  }
}
