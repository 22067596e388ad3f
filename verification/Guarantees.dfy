/** What the invariant of the running process says about the rows of the database, at every
    call to the node or the database, at every death of the process, and after every restart. */
module Guarantees {
  import opened Wrappers
  import opened Chain
  import opened Tables
  import opened Script
  import opened Plans
  import opened Machine
  import opened Replay
  import opened Confluence
  import opened Progress
  import opened Integrity
  import opened RowTables
  import opened Databases
  import opened Indexers
  import opened Scanner

  /** At most one row per logical key in every find-or-save table. */
  ghost predicate OneRowPerKey(db: Database)
    reads db
  {
    && UniqueKeys(db.blocks.rows) && UniqueKeys(db.txs.rows) && UniqueKeys(db.opRows.rows)
    && UniqueKeys(db.operations.rows) && UniqueKeys(db.receipts.rows) && UniqueKeys(db.history.rows)
    && UniqueKeys(db.accounts.rows) && UniqueKeys(db.tokens.rows) && UniqueKeys(db.balances.rows)
    && UniqueKeys(db.tokenBalances.rows) && UniqueKeys(db.configs.rows) && UniqueKeys(db.assets.rows)
  }

  /** The labels of an operation row name no other row of its table. */
  ghost predicate LabelsIdentify(db: Database)
    reads db
  {
    forall i, j {:trigger db.opRows.rows[i], db.opRows.rows[j]} ::
      0 <= i < j < |db.opRows.rows| && db.opRows.rows[i].key.table == db.opRows.rows[j].key.table ==>
      var a, b := db.opRows.rows[i].value, db.opRows.rows[j].value;
      && "trxid" in a && "index_in_tx" in a && "trxid" in b && "index_in_tx" in b
      && (a["trxid"] != b["trxid"] || a["index_in_tx"] != b["index_in_tx"])
  }

  /** Each operations row has its tbl_* row, each tbl_* row and receipt its transaction row, and
      each transaction row its block row. */
  ghost predicate RowsLinked(db: Database)
    reads db
  {
    && (forall a :: a in db.operations.rows ==> exists b :: b in db.opRows.rows && Matches(b.key, a.key, a.value))
    && (forall a :: a in db.opRows.rows ==> exists b :: b in db.txs.rows && b.key == a.key.txid)
    && (forall a :: a in db.receipts.rows ==> exists b :: b in db.txs.rows && b.key == a.key.txid)
    && (forall a :: a in db.txs.rows ==> exists b :: b in db.blocks.rows && b.key == a.value.blockNum)
  }

  /** Keyed uniqueness, errors that are only logged included. */
  lemma KeyedUniqueness(ix: Indexer)
    requires ix.Valid()
    ensures OneRowPerKey(ix.db) && LabelsIdentify(ix.db)
  {
    ix.db.Meaning();
    var rows, m := ix.db.opRows.rows, ix.db.disk.tables.rows;
    forall i, j {:trigger rows[i], rows[j]} | 0 <= i < j < |rows| && rows[i].key.table == rows[j].key.table
      ensures var a, b := rows[i].value, rows[j].value;
              && "trxid" in a && "index_in_tx" in a && "trxid" in b && "index_in_tx" in b
              && (a["trxid"] != b["trxid"] || a["index_in_tx"] != b["index_in_tx"])
    {
      assert m[rows[i].key] == rows[i].value && m[rows[j].key] == rows[j].value;
    }
  }

  /** A key of a table's mapping has a row, and a row's key is in the mapping. */
  lemma RowOfKey<K(!new), V>(t: Table<K, V>, m: map<K, V>, k: K) returns (r: Row<K, V>)
    requires TableIs(t, m) && k in m
    ensures r in t.rows && r.key == k && r.value == m[k]
  {
    assert Holds(t.rows, k);
    var i :| 0 <= i < |t.rows| && t.rows[i].key == k;
    r := t.rows[i];
  }

  lemma KeyOfRow<K(!new), V>(t: Table<K, V>, m: map<K, V>, r: Row<K, V>)
    requires TableIs(t, m) && r in t.rows
    ensures r.key in m && m[r.key] == r.value
  {
    var i :| 0 <= i < |t.rows| && t.rows[i] == r;
  }

  /** Referential integrity, errors that are only logged included. */
  lemma RowIntegrity(ix: Indexer)
    requires ix.Valid() && Proper(ix.p) && Tidy(ix.p)
    ensures RowsLinked(ix.db)
  {
    var db, d := ix.db, ix.db.disk.tables;
    RunMeans(ix.p, ix.run);
    ReferentialIntegrity(ix.p, ix.run.acts);
    db.Meaning();
    forall a | a in db.operations.rows ensures exists b :: b in db.opRows.rows && Matches(b.key, a.key, a.value) {
      KeyOfRow(db.operations, d.ops, a);
      assert Backed(d, a.key, a.value);
      var key :| key in d.rows && Matches(key, a.key, a.value);
      var b := RowOfKey(db.opRows, d.rows, key);
    }
    forall a | a in db.opRows.rows ensures exists b :: b in db.txs.rows && b.key == a.key.txid {
      KeyOfRow(db.opRows, d.rows, a);
      var b := RowOfKey(db.txs, d.txs, a.key.txid);
    }
    forall a | a in db.receipts.rows ensures exists b :: b in db.txs.rows && b.key == a.key.txid {
      KeyOfRow(db.receipts, d.receipts, a);
      var b := RowOfKey(db.txs, d.txs, a.key.txid);
    }
    forall a | a in db.txs.rows ensures exists b :: b in db.blocks.rows && b.key == a.value.blockNum {
      KeyOfRow(db.txs, d.txs, a);
      var b := RowOfKey(db.blocks, d.blocks, a.value.blockNum);
    }
  }

  /** A process that no error has made skip anything is on a run with crashes only, fatal errors
      included, so every result about such runs holds of its database. */
  lemma CalmRun(ix: Indexer)
    requires ix.Valid() && ix.run.calm
    ensures FailStop(ix.run.acts) && ix.run.now == After(ix.p, ix.run.acts) && ix.db.disk == ix.run.now.disk
  {
    RunMeans(ix.p, ix.run);
  }

  /** As long as no error was merely logged, whatever deaths and restarts there were, the
      database holds exactly the tables of one undisturbed pass up to the high-water mark. */
  lemma CalmConfluence(ix: Indexer)
    requires ix.Valid() && ix.run.calm && Sound(ix.p)
    ensures ix.run.now.hwm <= |All(ix.p)| && ix.db.disk.tables == Ideal(ix.p, ix.run.now.hwm)
  {
    CalmRun(ix);
    ReplayConfluence(ix.p, ix.run.acts);
  }

  /** A process that no error has made skip anything and that stands before a dead end has
      come as far as it ever will, however often it is restarted. */
  lemma StuckProcess(ix: Indexer, more: seq<Act>)
    requires ix.Valid() && ix.run.calm && Sound(ix.p) && DeadEnd(ix.p, ix.run.now) && FailStop(more)
    ensures After(ix.p, ix.run.acts + more).hwm == ix.run.now.hwm
  {
    CalmRun(ix);
    StuckForGood(ix.p, ix.run.acts, more);
  }

  /** The whole deployment, from the empty schema on, for every chain, every behaviour of the
      node and the database, and every sequence of restarts. */
  method Deploy(w: World, sessions: seq<nat>) returns (ix: Indexer)
    requires WorldOk(w)
    ensures ix.Valid() && ix.w == w
    ensures OneRowPerKey(ix.db) && LabelsIdentify(ix.db) && RowsLinked(ix.db)
    ensures ix.run.calm && Sound(PlanOf(w)) ==>
              ix.run.now.hwm <= |All(PlanOf(w))| && ix.db.disk.tables == Ideal(PlanOf(w), ix.run.now.hwm)
  {
    var db := new Database();
    ix := new Indexer(w, db);
    Operate(ix, sessions);
    PlanIsPrepared(w);
    KeyedUniqueness(ix);
    RowIntegrity(ix);
    if ix.run.calm && Sound(PlanOf(w)) {
      CalmConfluence(ix);
    }
  }
}
