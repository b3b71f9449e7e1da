/** The table-pruning step of the profile export (`CleanupExportedFile`): the exported snapshot
    starts as a full copy of the local database and is cut down to the requested users. */
module ExportCleanup {
  import opened Common

  // Stand-ins for the *Entry.TABLE_NAME constants; only their distinctness matters.
  const META := "meta_data"
  const USERS := "users"
  const PROFILES := "profiles"
  const LEARNER_ASSESSMENTS := "learner_assessments"
  const LEARNER_SUMMARY := "learner_content_summary"

  /** A table row, reduced to the uid it is filtered on and the rest of its columns. */
  datatype Row = Row(uid: string, data: Value)

  /** The snapshot database: table name to rows, in storage order. */
  type Tables = map<string, seq<Row>>

  /** `getAllTableToExclude`: the tables that are filtered row by row instead of dropped. */
  function ExclusionList(): (r: seq<string>)
    ensures forall t :: t in r <==> t in {META, USERS, PROFILES, LEARNER_ASSESSMENTS, LEARNER_SUMMARY}
  {
    [META, USERS, PROFILES, LEARNER_ASSESSMENTS, LEARNER_SUMMARY]
  }

  /** The tables whose rows the pruning rewrites must exist in the snapshot; each of them is read
      or cleared unconditionally. */
  predicate Prunable(t: Tables)
  {
    PROFILES in t && USERS in t && LEARNER_ASSESSMENTS in t && LEARNER_SUMMARY in t
  }

  /** The snapshot after `removeTables`: every table outside the exclusion list is gone and the
      excluded ones are untouched. */
  function Dropped(t: Tables): (r: Tables)
    ensures forall n :: n in r <==> n in t && n in ExclusionList()
    ensures forall n :: n in r ==> r[n] == t[n]
  {
    map n | n in t && n in ExclusionList() :: t[n]
  }

  /** The row that a lookup by uid reads (`UserProfileModel.find`, `UserModel.findByUserId`):
      the first one stored with that uid. */
  function First(rows: seq<Row>, uid: string): (r: Option<Row>)
    ensures r.Some? ==> r.value in rows && r.value.uid == uid
    ensures r.None? <==> forall x :: x in rows ==> x.uid != uid
  {
    if rows == [] then None
    else if rows[0].uid == uid then Some(rows[0])
    else First(rows[1..], uid)
  }

  /** `profilesToRetain` / `userToRetain`: for each requested uid in order, the row found for it. */
  function Retained(rows: seq<Row>, ids: seq<string>): (r: seq<Row>)
    ensures |r| <= |ids|
    ensures forall x :: x in r ==> x in rows && x.uid in ids
    decreases |ids|
  {
    if ids == [] then []
    else
      var earlier := Retained(rows, ids[..|ids| - 1]);
      match First(rows, ids[|ids| - 1])
      case None => earlier
      case Some(r) => earlier + [r]
  }

  /** Looking up one more uid appends the row it finds, if any. */
  lemma RetainedStep(rows: seq<Row>, ids: seq<string>, uid: string)
    ensures Retained(rows, ids + [uid]) == Retained(rows, ids) + (if First(rows, uid).Some? then [First(rows, uid).value] else [])
  {
    assert (ids + [uid])[..|ids|] == ids;
  }

  // Solver aids: two facts about map updates, stated once so that the proofs of the deleting
  // methods below do not rediscover them. They model nothing of the source.

  /** Writing a table again replaces the first write, whatever other table was written between. */
  lemma UpdateAgain(t: Tables, a: string, b: string, x: seq<Row>, y: seq<Row>, z: seq<Row>)
    requires a != b
    ensures t[a := x][b := y][a := z] == t[a := z][b := y]
  {
  }

  /** Writing a table twice in a row leaves the second write. */
  lemma Overwrite(t: Tables, a: string, y: seq<Row>, z: seq<Row>)
    ensures t[a := y][a := z] == t[a := z]
  {
  }

  /** `UserModel.build(dbSession, user.getUid())`: a re-inserted user row carries the uid only. */
  function Rebuilt(rows: seq<Row>): (r: seq<Row>)
    ensures |r| == |rows|
    ensures forall i :: 0 <= i < |r| ==> r[i] == Row(rows[i].uid, Null)
  {
    if rows == [] then [] else Rebuilt(rows[..|rows| - 1]) + [Row(rows[|rows| - 1].uid, Null)]
  }

  /** `StringUtil.join("','", ids)`. */
  function Join(ids: seq<string>): (r: string)
    ensures |ids| == 1 ==> r == ids[0]
    ensures (forall id :: id in ids ==> NoQuote(id)) ==> Quotes(r) == if ids == [] then 0 else 2 * |ids| - 2
  {
    if |ids| == 0 then ""
    else if |ids| == 1 then
      NoQuoteQuotes(ids[0]);
      assert ids[0] in ids;
      ids[0]
    else
      var rest := Join(ids[1..]);
      QuotesAppend(ids[0], "','");
      QuotesAppend(ids[0] + "','", rest);
      NoQuoteQuotes(ids[0]);
      assert ids[0] in ids;
      assert forall id :: id in ids[1..] ==> id in ids;
      ids[0] + "','" + rest
  }

  /** The SQL list literal inside `NOT IN(...)`: the joined ids between an opening and a closing
      quote. With quote-free ids it holds two quotes per id (one literal for an empty list). */
  function QuotedList(ids: seq<string>): (r: string)
    ensures |r| >= 2 && r[0] == '\'' && r[|r| - 1] == '\''
    ensures (forall id :: id in ids ==> NoQuote(id)) ==> Quotes(r) == if ids == [] then 2 else 2 * |ids|
  {
    var joined := Join(ids);
    QuotesAppend("'", joined);
    QuotesAppend("'" + joined, "'");
    "'" + joined + "'"
  }

  /** The number of quote characters in `s`. */
  function Quotes(s: string): nat
  {
    if s == [] then 0 else (if s[0] == '\'' then 1 else 0) + Quotes(s[1..])
  }

  lemma {:induction false} QuotesAppend(a: string, b: string)
    ensures Quotes(a + b) == Quotes(a) + Quotes(b)
  {
    if a != [] {
      assert (a + b)[1..] == a[1..] + b;
      QuotesAppend(a[1..], b);
    } else {
      assert a + b == b;
    }
  }

  lemma {:induction false} NoQuoteQuotes(s: string)
    ensures NoQuote(s) ==> Quotes(s) == 0
  {
    if s != [] {
      NoQuoteQuotes(s[1..]);
      assert NoQuote(s) ==> NoQuote(s[1..]);
    }
  }

  predicate NoQuote(s: string)
  {
    forall i :: 0 <= i < |s| ==> s[i] != '\''
  }

  /** Reads the body of a quoted literal whose opening quote is already consumed: the characters
      up to the closing quote, and what follows it. */
  function Body(s: string): (r: (string, string))
    ensures |r.1| <= |s|
  {
    if s == [] then ([], [])
    else if s[0] == '\'' then ([], s[1..])
    else
      var (b, rest) := Body(s[1..]);
      ([s[0]] + b, rest)
  }

  function LiteralsAfterOpen(s: string): seq<string>
    decreases |s|
  {
    var (b, rest) := Body(s);
    if |rest| >= 2 && rest[0] == ',' && rest[1] == '\'' then [b] + LiteralsAfterOpen(rest[2..])
    else [b]
  }

  /** The string values a comma-separated list of quoted SQL literals denotes. */
  function Literals(s: string): seq<string>
  {
    if |s| > 0 && s[0] == '\'' then LiteralsAfterOpen(s[1..]) else []
  }

  /** The rows a `DELETE ... WHERE uid NOT IN(keep)` leaves behind, in their original order. */
  function WithUids(rows: seq<Row>, keep: seq<string>): (r: seq<Row>)
    ensures forall x :: x in r <==> x in rows && x.uid in keep
    ensures |r| <= |rows|
  {
    if rows == [] then []
    else if rows[0].uid in keep then [rows[0]] + WithUids(rows[1..], keep)
    else WithUids(rows[1..], keep)
  }

  /** The profiles and users tables after `deleteUnwantedProfilesAndUsers`. */
  function ProfilesAndUsersKept(t: Tables, ids: seq<string>): Tables
    requires PROFILES in t && USERS in t
  {
    t[PROFILES := Retained(t[PROFILES], ids)][USERS := Rebuilt(Retained(t[USERS], ids))]
  }

  /** The learner tables after `deleteUnwantedProfileSummary`: both deletes in one transaction. */
  function SummaryKept(t: Tables, ids: seq<string>): Tables
    requires LEARNER_ASSESSMENTS in t && LEARNER_SUMMARY in t
  {
    var keep := Literals(QuotedList(ids));
    t[LEARNER_ASSESSMENTS := WithUids(t[LEARNER_ASSESSMENTS], keep)]
     [LEARNER_SUMMARY := WithUids(t[LEARNER_SUMMARY], keep)]
  }

  /** The whole database part of the step: drop, then rebuild profiles and users, then filter the
      learner tables. */
  function Pruned(t: Tables, ids: seq<string>): (r: Tables)
    requires Prunable(t)
    ensures Prunable(r)
    ensures forall n :: n in r <==> n in t && n in ExclusionList()
  {
    var d := Dropped(t);
    DroppedKeepsPrunable(t);
    ProfilesAndUsersTables(d, ids);
    SummaryTables(ProfilesAndUsersKept(d, ids), ids);
    SummaryKept(ProfilesAndUsersKept(d, ids), ids)
  }

  // ---------------------------------------------------------------------------------------------
  // Lookup and retention

  lemma {:induction false} FirstAppend(rows: seq<Row>, r: Row, uid: string)
    ensures First(rows + [r], uid) ==
      if First(rows, uid).Some? then First(rows, uid) else if r.uid == uid then Some(r) else None
  {
    if rows == [] {
      assert rows + [r] == [r];
    } else {
      assert (rows + [r])[1..] == rows[1..] + [r];
      if rows[0].uid != uid {
        FirstAppend(rows[1..], r, uid);
      }
    }
  }

  /** A lookup in the retained rows finds what a lookup in the original rows found, for requested
      uids, and nothing for any other uid. */
  lemma {:induction false} FirstInRetained(rows: seq<Row>, ids: seq<string>, uid: string)
    ensures First(Retained(rows, ids), uid) == if uid in ids then First(rows, uid) else None
    decreases |ids|
  {
    if ids != [] {
      var init, last := ids[..|ids| - 1], ids[|ids| - 1];
      assert ids == init + [last];
      FirstInRetained(rows, init, uid);
      match First(rows, last)
      case None =>
      case Some(r) =>
        FirstAppend(Retained(rows, init), r, uid);
    }
  }

  /** A row is retained exactly when its uid was requested and it is the row a lookup finds. */
  lemma {:induction false} InRetained(rows: seq<Row>, ids: seq<string>, x: Row)
    ensures x in Retained(rows, ids) <==> x.uid in ids && First(rows, x.uid) == Some(x)
    decreases |ids|
  {
    if ids != [] {
      var init, last := ids[..|ids| - 1], ids[|ids| - 1];
      assert ids == init + [last];
      InRetained(rows, init, x);
    }
  }

  /** No two rows share a uid. */
  predicate UniqueUids(rows: seq<Row>)
  {
    forall i, j :: 0 <= i < j < |rows| ==> rows[i].uid != rows[j].uid
  }

  lemma {:induction false} FirstUnique(rows: seq<Row>, x: Row)
    requires UniqueUids(rows)
    ensures First(rows, x.uid) == Some(x) <==> x in rows
  {
    if rows != [] && rows[0].uid != x.uid {
      FirstUnique(rows[1..], x);
    }
  }

  /** With unique uids, the retained rows are exactly the original rows whose uid was requested. */
  lemma RetainedExactly(rows: seq<Row>, ids: seq<string>)
    requires UniqueUids(rows)
    ensures forall x :: x in Retained(rows, ids) <==> x in rows && x.uid in ids
  {
    forall x
      ensures x in Retained(rows, ids) <==> x in rows && x.uid in ids
    {
      InRetained(rows, ids, x);
      FirstUnique(rows, x);
    }
  }

  lemma {:induction false} RetainedOfRetained(rows: seq<Row>, ids: seq<string>, ids2: seq<string>)
    requires forall u :: u in ids2 ==> u in ids
    ensures Retained(Retained(rows, ids), ids2) == Retained(rows, ids2)
    decreases |ids2|
  {
    if ids2 != [] {
      var init, last := ids2[..|ids2| - 1], ids2[|ids2| - 1];
      assert forall u :: u in init ==> u in ids2;
      RetainedOfRetained(rows, ids, init);
      FirstInRetained(rows, ids, last);
    }
  }

  /** Retaining twice with the same ids retains the same rows as retaining once. */
  lemma RetainedIdempotent(rows: seq<Row>, ids: seq<string>)
    ensures Retained(Retained(rows, ids), ids) == Retained(rows, ids)
  {
    RetainedOfRetained(rows, ids, ids);
  }

  lemma {:induction false} FirstRebuilt(rows: seq<Row>, uid: string)
    ensures First(Rebuilt(rows), uid) == match First(rows, uid) case None => None case Some(x) => Some(Row(x.uid, Null))
  {
    if rows != [] {
      var tail := Rebuilt(rows)[1..];
      assert tail == Rebuilt(rows[1..]);
      if rows[0].uid != uid {
        FirstRebuilt(rows[1..], uid);
      }
    }
  }

  lemma {:induction false} RetainedRebuilt(rows: seq<Row>, ids: seq<string>)
    ensures Retained(Rebuilt(rows), ids) == Rebuilt(Retained(rows, ids))
    decreases |ids|
  {
    if ids != [] {
      var init, last := ids[..|ids| - 1], ids[|ids| - 1];
      RetainedRebuilt(rows, init);
      FirstRebuilt(rows, last);
    }
  }

  lemma RebuiltIdempotent(rows: seq<Row>)
    ensures Rebuilt(Rebuilt(rows)) == Rebuilt(rows)
  {
  }

  lemma {:induction false} WithUidsIdempotent(rows: seq<Row>, keep: seq<string>)
    ensures WithUids(WithUids(rows, keep), keep) == WithUids(rows, keep)
  {
    if rows != [] {
      WithUidsIdempotent(rows[1..], keep);
      if rows[0].uid in keep {
        assert ([rows[0]] + WithUids(rows[1..], keep))[1..] == WithUids(rows[1..], keep);
      }
    }
  }

  // ---------------------------------------------------------------------------------------------
  // The NOT IN list

  lemma {:induction false} BodyOfQuoted(x: string, rest: string)
    requires NoQuote(x)
    ensures Body(x + "'" + rest) == (x, rest)
  {
    if x != [] {
      var s := x + "'" + rest;
      assert s[0] == x[0] && s[0] != '\'';
      assert s[1..] == x[1..] + "'" + rest;
      assert NoQuote(x[1..]) by {
        forall i | 0 <= i < |x[1..]| ensures x[1..][i] != '\'' {
          assert x[1..][i] == x[i + 1];
        }
      }
      BodyOfQuoted(x[1..], rest);
      assert [x[0]] + x[1..] == x;
    }
  }

  lemma {:induction false} LiteralsOfJoin(ids: seq<string>)
    requires ids != []
    requires forall id :: id in ids ==> NoQuote(id)
    ensures LiteralsAfterOpen(Join(ids) + "'") == ids
    decreases |ids|
  {
    if |ids| == 1 {
      BodyOfQuoted(ids[0], "");
      assert Join(ids) + "'" == ids[0] + "'" + "";
    } else {
      var tail := Join(ids[1..]) + "'";
      assert Join(ids) + "'" == ids[0] + "'" + (",'" + tail);
      BodyOfQuoted(ids[0], ",'" + tail);
      assert (",'" + tail)[2..] == tail;
      LiteralsOfJoin(ids[1..]);
      assert ids == [ids[0]] + ids[1..];
    }
  }

  /** The values the `NOT IN` list denotes are the requested ids, or the single empty string when
      none were requested (the list `''`), provided no id contains a quote. */
  lemma LiteralsOfQuotedList(ids: seq<string>)
    requires forall id :: id in ids ==> NoQuote(id)
    ensures Literals(QuotedList(ids)) == if ids == [] then [""] else ids
  {
    if ids == [] {
      assert QuotedList(ids) == "''";
    } else {
      assert QuotedList(ids)[1..] == Join(ids) + "'";
      LiteralsOfJoin(ids);
    }
  }

  /** After the transaction, an assessment or summary row remains exactly when its uid was
      requested (or, with no ids at all, when its uid is the empty string). */
  lemma SummaryRowsKept(t: Tables, ids: seq<string>, table: string, x: Row)
    requires LEARNER_ASSESSMENTS in t && LEARNER_SUMMARY in t
    requires table == LEARNER_ASSESSMENTS || table == LEARNER_SUMMARY
    requires forall id :: id in ids ==> NoQuote(id)
    ensures x in SummaryKept(t, ids)[table] <==> x in t[table] && (if ids == [] then x.uid == "" else x.uid in ids)
  {
    LiteralsOfQuotedList(ids);
  }

  // ---------------------------------------------------------------------------------------------
  // The whole pruning

  /** With unique uids, the rebuilt users are exactly the requested users, each reduced to its uid. */
  lemma RebuiltRetainedExactly(rows: seq<Row>, ids: seq<string>)
    requires UniqueUids(rows)
    ensures forall x :: x in Rebuilt(Retained(rows, ids)) <==>
      exists y :: y in rows && y.uid in ids && x == Row(y.uid, Null)
  {
    var r := Retained(rows, ids);
    RetainedExactly(rows, ids);
    forall x | x in Rebuilt(r)
      ensures exists y :: y in rows && y.uid in ids && x == Row(y.uid, Null)
    {
      var i :| 0 <= i < |r| && Rebuilt(r)[i] == x;
      assert r[i] in r;
    }
    forall x, y | y in rows && y.uid in ids && x == Row(y.uid, Null)
      ensures x in Rebuilt(r)
    {
      assert y in r;
      var i :| 0 <= i < |r| && r[i] == y;
      assert Rebuilt(r)[i] == x;
    }
  }

  /** After pruning, profiles hold exactly the requested users' profile rows and users hold exactly
      the requested users (rebuilt from their uid), given unique uids in the snapshot. */
  lemma PrunedProfilesAndUsers(t: Tables, ids: seq<string>)
    requires Prunable(t)
    requires UniqueUids(t[PROFILES]) && UniqueUids(t[USERS])
    ensures forall x :: x in Pruned(t, ids)[PROFILES] <==> x in t[PROFILES] && x.uid in ids
    ensures forall x :: x in Pruned(t, ids)[USERS] <==>
      exists y :: y in t[USERS] && y.uid in ids && x == Row(y.uid, Null)
  {
    PrunedTables(t, ids);
    RetainedExactly(t[PROFILES], ids);
    RebuiltRetainedExactly(t[USERS], ids);
  }

  /** Dropping keeps the four tables the pruning rewrites, as they were. */
  lemma DroppedKeepsPrunable(t: Tables)
    requires Prunable(t)
    ensures var d := Dropped(t);
      && Prunable(d)
      && d[PROFILES] == t[PROFILES] && d[USERS] == t[USERS]
      && d[LEARNER_ASSESSMENTS] == t[LEARNER_ASSESSMENTS] && d[LEARNER_SUMMARY] == t[LEARNER_SUMMARY]
  {
  }

  /** Rebuilding profiles and users touches no other table. */
  lemma ProfilesAndUsersTables(t: Tables, ids: seq<string>)
    requires PROFILES in t && USERS in t
    ensures var m := ProfilesAndUsersKept(t, ids);
      && m.Keys == t.Keys
      && m[PROFILES] == Retained(t[PROFILES], ids) && m[USERS] == Rebuilt(Retained(t[USERS], ids))
      && forall n :: n in m && n != PROFILES && n != USERS ==> m[n] == t[n]
  {
  }

  /** Filtering the learner tables touches no other table. */
  lemma SummaryTables(t: Tables, ids: seq<string>)
    requires LEARNER_ASSESSMENTS in t && LEARNER_SUMMARY in t
    ensures var m := SummaryKept(t, ids);
      && m.Keys == t.Keys
      && m[LEARNER_ASSESSMENTS] == WithUids(t[LEARNER_ASSESSMENTS], Literals(QuotedList(ids)))
      && m[LEARNER_SUMMARY] == WithUids(t[LEARNER_SUMMARY], Literals(QuotedList(ids)))
      && forall n :: n in m && n != LEARNER_ASSESSMENTS && n != LEARNER_SUMMARY ==> m[n] == t[n]
  {
  }

  /** What pruning leaves in each table it keeps. */
  lemma PrunedTables(t: Tables, ids: seq<string>)
    requires Prunable(t)
    ensures var p := Pruned(t, ids);
      && p[PROFILES] == Retained(t[PROFILES], ids)
      && p[USERS] == Rebuilt(Retained(t[USERS], ids))
      && p[LEARNER_ASSESSMENTS] == WithUids(t[LEARNER_ASSESSMENTS], Literals(QuotedList(ids)))
      && p[LEARNER_SUMMARY] == WithUids(t[LEARNER_SUMMARY], Literals(QuotedList(ids)))
      && (forall n :: n in p && n != PROFILES && n != USERS && n != LEARNER_ASSESSMENTS && n != LEARNER_SUMMARY
            ==> p[n] == t[n])
  {
    var d := Dropped(t);
    DroppedKeepsPrunable(t);
    var m := ProfilesAndUsersKept(d, ids);
    ProfilesAndUsersTables(d, ids);
    SummaryTables(m, ids);
  }

  /** A second pruning leaves each of the four rewritten tables as the first left it. */
  lemma PrunedTwiceRewritten(t: Tables, ids: seq<string>)
    requires Prunable(t)
    ensures var once := Pruned(t, ids);
      var twice := Pruned(once, ids);
      && twice[PROFILES] == once[PROFILES]
      && twice[USERS] == once[USERS]
      && twice[LEARNER_ASSESSMENTS] == once[LEARNER_ASSESSMENTS]
      && twice[LEARNER_SUMMARY] == once[LEARNER_SUMMARY]
  {
    var once := Pruned(t, ids);
    var keep := Literals(QuotedList(ids));
    PrunedTables(t, ids);
    PrunedTables(once, ids);
    RetainedIdempotent(t[PROFILES], ids);
    RetainedRebuilt(Retained(t[USERS], ids), ids);
    RetainedIdempotent(t[USERS], ids);
    RebuiltIdempotent(Retained(t[USERS], ids));
    WithUidsIdempotent(t[LEARNER_ASSESSMENTS], keep);
    WithUidsIdempotent(t[LEARNER_SUMMARY], keep);
  }

  /** A second pruning leaves every other table, and the set of tables, as the first left them. */
  lemma PrunedTwiceOthers(t: Tables, ids: seq<string>)
    requires Prunable(t)
    ensures var once := Pruned(t, ids);
      var twice := Pruned(once, ids);
      && twice.Keys == once.Keys
      && forall n ::
           (n in twice && n != PROFILES && n != USERS && n != LEARNER_ASSESSMENTS && n != LEARNER_SUMMARY)
           ==> twice[n] == once[n]
  {
    PrunedTables(Pruned(t, ids), ids);
  }

  /** Pruning a pruned snapshot with the same ids changes nothing. */
  lemma PrunedIdempotent(t: Tables, ids: seq<string>)
    requires Prunable(t)
    ensures Pruned(Pruned(t, ids), ids) == Pruned(t, ids)
  {
    var once := Pruned(t, ids);
    var twice := Pruned(once, ids);
    PrunedTwiceRewritten(t, ids);
    PrunedTwiceOthers(t, ids);
    forall n | n in once
      ensures twice[n] == once[n]
    {
    }
  }

  /** The snapshot database being exported, opened at the destination path. */
  class SnapshotDb {
    var tables: Tables

    constructor(tables: Tables)
      ensures this.tables == tables
    {
      this.tables := tables;
    }

    /** `getAllTables`: every table name, once each (an empty result when the catalogue query
        finds nothing). */
    method AllTables() returns (names: seq<string>)
      ensures forall n :: n in names <==> n in tables
      ensures forall i, j :: 0 <= i < j < |names| ==> names[i] != names[j]
    {
      names := [];
      var rest := tables.Keys;
      while rest != {}
        invariant rest <= tables.Keys
        invariant forall n :: n in names <==> n in tables && n !in rest
        invariant forall i, j :: 0 <= i < j < |names| ==> names[i] != names[j]
        decreases rest
      {
        var n :| n in rest;
        names := names + [n];
        rest := rest - {n};
      }
    }

    /** `removeTables`: drops every listed table that is not excluded. */
    method RemoveTables(allTables: seq<string>, allTableToExclude: seq<string>)
      modifies this
      ensures tables == map n | n in old(tables) && (n !in allTables || n in allTableToExclude) :: old(tables)[n]
    {
      var i := 0;
      while i < |allTables|
        invariant 0 <= i <= |allTables|
        invariant tables == map n | n in old(tables) && (n !in allTables[..i] || n in allTableToExclude) :: old(tables)[n]
      {
        var table := allTables[i];
        if table !in allTableToExclude {
          tables := tables - {table};    // DROP TABLE IF EXISTS
        }
        assert allTables[..i + 1] == allTables[..i] + [table];
        i := i + 1;
      }
      assert allTables[..i] == allTables;
    }

    /** `cleanTable`: deletes every row of the table. */
    method CleanTable(tableName: string)
      requires tableName in tables
      modifies this
      ensures tables == old(tables)[tableName := []]
    {
      tables := tables[tableName := []];
    }

    /** Inserts one row at the end of a table (`save()` of a model). */
    method SaveRow(tableName: string, row: Row)
      requires tableName in tables
      modifies this
      ensures tables == old(tables)[tableName := old(tables)[tableName] + [row]]
    {
      tables := tables[tableName := tables[tableName] + [row]];
    }

    /** `deleteUnwantedProfilesAndUsers`: collects the requested users' rows, clears both tables
        and re-inserts what was collected. */
    method DeleteUnwantedProfilesAndUsers(userIds: seq<string>)
      requires PROFILES in tables && USERS in tables
      modifies this
      ensures tables == ProfilesAndUsersKept(old(tables), userIds)
    {
      var profilesToRetain, userToRetain := CollectRetained(userIds);
      ghost var t := tables;
      ghost var kept := Rebuilt(userToRetain);
      CleanTable(PROFILES);
      CleanTable(USERS);
      assert tables == t[PROFILES := []][USERS := []];
      SaveProfiles(profilesToRetain);
      assert [] + profilesToRetain == profilesToRetain;
      UpdateAgain(t, PROFILES, USERS, [], [], profilesToRetain);
      assert tables == t[PROFILES := profilesToRetain][USERS := []];
      SaveUsers(userToRetain);
      assert [] + kept == kept;
      Overwrite(t[PROFILES := profilesToRetain], USERS, [], kept);
    }

    /** The lookup loop of `deleteUnwantedProfilesAndUsers`: for each requested uid, the profile
        row and the user row found for it, if any. */
    method CollectRetained(userIds: seq<string>) returns (profilesToRetain: seq<Row>, userToRetain: seq<Row>)
      requires PROFILES in tables && USERS in tables
      ensures profilesToRetain == Retained(tables[PROFILES], userIds)
      ensures userToRetain == Retained(tables[USERS], userIds)
    {
      profilesToRetain, userToRetain := [], [];
      var i := 0;
      while i < |userIds|
        invariant 0 <= i <= |userIds|
        invariant profilesToRetain == Retained(tables[PROFILES], userIds[..i])
        invariant userToRetain == Retained(tables[USERS], userIds[..i])
      {
        var uid := userIds[i];
        assert userIds[..i + 1] == userIds[..i] + [uid];
        RetainedStep(tables[PROFILES], userIds[..i], uid);
        RetainedStep(tables[USERS], userIds[..i], uid);
        var userProfileModel := First(tables[PROFILES], uid);
        if userProfileModel.Some? {
          profilesToRetain := profilesToRetain + [userProfileModel.value];
        }
        var userModel := First(tables[USERS], uid);
        if userModel.Some? {
          userToRetain := userToRetain + [userModel.value];
        }
        i := i + 1;
      }
      assert userIds[..i] == userIds;
    }

    /** Saves each retained profile, in order. */
    method SaveProfiles(profilesToRetain: seq<Row>)
      requires PROFILES in tables
      modifies this
      ensures tables == old(tables)[PROFILES := old(tables)[PROFILES] + profilesToRetain]
    {
      ghost var before := tables[PROFILES];
      assert before + profilesToRetain[..0] == before;
      assert tables == old(tables)[PROFILES := before];
      var j := 0;
      while j < |profilesToRetain|
        invariant 0 <= j <= |profilesToRetain|
        invariant tables == old(tables)[PROFILES := before + profilesToRetain[..j]]
      {
        assert profilesToRetain[..j + 1] == profilesToRetain[..j] + [profilesToRetain[j]];
        assert before + profilesToRetain[..j + 1] == (before + profilesToRetain[..j]) + [profilesToRetain[j]];
        SaveRow(PROFILES, profilesToRetain[j]);
        j := j + 1;
      }
      assert profilesToRetain[..j] == profilesToRetain;
    }

    /** Saves a user rebuilt from each retained user's uid, in order. */
    method SaveUsers(userToRetain: seq<Row>)
      requires USERS in tables
      modifies this
      ensures tables == old(tables)[USERS := old(tables)[USERS] + Rebuilt(userToRetain)]
    {
      ghost var before := tables[USERS];
      assert before + Rebuilt(userToRetain[..0]) == before;
      assert tables == old(tables)[USERS := before];
      var k := 0;
      while k < |userToRetain|
        invariant 0 <= k <= |userToRetain|
        invariant tables == old(tables)[USERS := before + Rebuilt(userToRetain[..k])]
      {
        var user := Row(userToRetain[k].uid, Null);
        assert userToRetain[..k + 1][..k] == userToRetain[..k];
        assert Rebuilt(userToRetain[..k + 1]) == Rebuilt(userToRetain[..k]) + [user];
        assert before + Rebuilt(userToRetain[..k + 1]) == (before + Rebuilt(userToRetain[..k])) + [user];
        SaveRow(USERS, user);
        k := k + 1;
      }
      assert userToRetain[..k] == userToRetain;
    }

    /** `deleteUnwantedProfileSummary`: the two `NOT IN` deletes, applied together as the
        transaction does. */
    method DeleteUnwantedProfileSummary(userIds: seq<string>)
      requires LEARNER_ASSESSMENTS in tables && LEARNER_SUMMARY in tables
      modifies this
      ensures tables == SummaryKept(old(tables), userIds)
    {
      var commaSeparatedUids := QuotedList(userIds);
      var keep := Literals(commaSeparatedUids);
      tables := tables[LEARNER_ASSESSMENTS := WithUids(tables[LEARNER_ASSESSMENTS], keep)]
                      [LEARNER_SUMMARY := WithUids(tables[LEARNER_SUMMARY], keep)];
    }

    /** The database work of `execute`: enumerate, drop, rebuild, filter. */
    method Prune(userIds: seq<string>)
      requires Prunable(tables)
      modifies this
      ensures tables == Pruned(old(tables), userIds)
    {
      var allTables := AllTables();
      var allTableToExclude := ExclusionList();
      RemoveTables(allTables, allTableToExclude);
      assert tables == Dropped(old(tables));
      DeleteUnwantedProfilesAndUsers(userIds);
      DeleteUnwantedProfileSummary(userIds);
    }
  }
}
