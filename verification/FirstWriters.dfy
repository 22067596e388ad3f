/** Find-or-save tables keep the first row offered for a key: which instruction of the whole
    script that is, and that replays never change it, although the set of registered token
    contracts is larger the second time round. */
module FirstWriters {
  import opened Wrappers
  import opened Tables
  import opened Script
  import opened Plans
  import opened Collect
  import opened Machine
  import opened Replay
  import opened Confluence

  /** What a decodable Transfer event of a contract that is ever registered offers, if its row
      fits the columns. */
  function TransferPut(a: seq<Instr>, i: Instr): Option<Put<ReceiptKey, HistoryRow>> {
    if i.SaveHistory? && RegisteredBefore(a, |a|, i.hrow.contract) && HistoryFits(i.hkey, i.hrow)
    then Some(Put(i.hkey, i.hrow)) else None
  }

  /** A transfer is recorded in the ideal pass exactly if its contract is ever registered and
      its row fits. */
  lemma {:induction false} HistoryCollected(a: seq<Instr>, n: nat)
    requires EventsFollowRegistration(a) && n <= |a|
    ensures Replayed(a[..n]).history == Collected(a[..n], i => TransferPut(a, i))
  {
    if n > 0 {
      var f := i => TransferPut(a, i);
      HistoryCollected(a, n - 1);
      PrefixStep(a, n - 1);
      assert a[..n][..n - 1] == a[..n - 1];
      HistoryStep(a, n - 1);
    }
  }

  lemma HistoryStep(a: seq<Instr>, n: nat)
    requires EventsFollowRegistration(a) && n < |a|
    ensures HistoryPut(Replayed(a[..n]).tokens, a[n]) == TransferPut(a, a[n])
  {
    if a[n].SaveHistory? {
      assert Needed(a[n]) == Some(a[n].hrow.contract);
      TokensReplayed(a, n, a[n].hrow.contract);
      RegisteredLater(a, n, |a|, a[n].hrow.contract);
    }
  }

  /** First-writer stability of transfer history: after any run with crashes only, the row of
      a (transaction, operation) is the first of its decodable Transfer events of a token
      contract whose row fits the columns, and there is a row as soon as one such event was
      scanned. An amount of 10^18 or more is passed over in favour of a later event. */
  lemma HistoryFirstWriter(p: Plan, acts: seq<Act>, key: ReceiptKey)
    requires Sound(p) && FailStop(acts)
    ensures After(p, acts).hwm <= |All(p)|
    ensures var s, a, f := After(p, acts), All(p), i => TransferPut(All(p), i);
            && (key in s.disk.tables.history <==> exists i :: Offers(a[..s.hwm], f, i, key))
            && (forall i :: FirstOffer(a[..s.hwm], f, i, key) ==>
                  key in s.disk.tables.history && s.disk.tables.history[key] == a[i].hrow)
  {
    var s, a, f := After(p, acts), All(p), i => TransferPut(All(p), i);
    ReplayConfluence(p, acts);
    HistoryCollected(a, s.hwm);
    KeyExactly(a[..s.hwm], f, key);
    forall i | FirstOffer(a[..s.hwm], f, i, key)
      ensures key in s.disk.tables.history && s.disk.tables.history[key] == a[i].hrow
    {
      FirstWriter(a[..s.hwm], f, i, key);
    }
  }

  /** First-writer stability of accounts: the name stored for a payer is the one of the first
      account_create operation with a string name and that payer, in scan order. */
  lemma AccountFirstWriter(p: Plan, acts: seq<Act>, payer: string)
    requires Proper(p) && FailStop(acts)
    ensures After(p, acts).hwm <= |All(p)|
    ensures var s, a := After(p, acts), All(p);
            && (payer in s.disk.tables.accounts <==> exists i :: Offers(a[..s.hwm], AccountPut, i, payer))
            && (forall i :: FirstOffer(a[..s.hwm], AccountPut, i, payer) ==>
                  payer in s.disk.tables.accounts && s.disk.tables.accounts[payer] == a[i].name)
  {
    var s, a := After(p, acts), All(p);
    ReplayConfluenceButHistory(p, acts);
    AccountsCollected(a[..s.hwm]);
    KeyExactly(a[..s.hwm], AccountPut, payer);
    forall i | FirstOffer(a[..s.hwm], AccountPut, i, payer)
      ensures payer in s.disk.tables.accounts && s.disk.tables.accounts[payer] == a[i].name
    {
      FirstWriter(a[..s.hwm], AccountPut, i, payer);
    }
  }

  /** The token set is the set of registered token contracts, each with the row of its first
      registration. */
  lemma TokenFirstWriter(p: Plan, acts: seq<Act>, contract: string)
    requires Proper(p) && FailStop(acts)
    ensures After(p, acts).hwm <= |All(p)|
    ensures var s, a := After(p, acts), All(p);
            && (contract in s.disk.tables.tokens <==> RegisteredBefore(a, s.hwm, contract))
            && (forall i :: FirstOffer(a[..s.hwm], TokenPut, i, contract) ==>
                  contract in s.disk.tables.tokens && s.disk.tables.tokens[contract] == a[i].token)
  {
    var s, a := After(p, acts), All(p);
    ReplayConfluenceButHistory(p, acts);
    TokensReplayed(a, s.hwm, contract);
    TokensCollected(a[..s.hwm]);
    forall i | FirstOffer(a[..s.hwm], TokenPut, i, contract)
      ensures contract in s.disk.tables.tokens && s.disk.tables.tokens[contract] == a[i].token
    {
      FirstWriter(a[..s.hwm], TokenPut, i, contract);
    }
  }

  /** The columns of an operation table are the keys of the first operation of that type in
      scan order, and always contain the two columns the existence check goes by. */
  lemma SchemaFirstWriter(p: Plan, acts: seq<Act>, table: string)
    requires Proper(p) && FailStop(acts)
    ensures After(p, acts).hwm <= |All(p)|
    ensures var s, a := After(p, acts), All(p);
            && (table in s.disk.tables.schemas <==> exists i :: Offers(a[..s.hwm], SchemaPut, i, table))
            && (forall i :: FirstOffer(a[..s.hwm], SchemaPut, i, table) ==>
                  table in s.disk.tables.schemas && s.disk.tables.schemas[table] == a[i].columns)
            && (table in s.disk.tables.schemas ==> {"trxid", "index_in_tx"} <= s.disk.tables.schemas[table])
  {
    var s, a := After(p, acts), All(p);
    ReplayConfluenceButHistory(p, acts);
    SchemasCollected(a[..s.hwm]);
    KeyExactly(a[..s.hwm], SchemaPut, table);
    forall i | FirstOffer(a[..s.hwm], SchemaPut, i, table)
      ensures table in s.disk.tables.schemas && s.disk.tables.schemas[table] == a[i].columns
    {
      FirstWriter(a[..s.hwm], SchemaPut, i, table);
    }
    var first := CollectedAt(a[..s.hwm], SchemaPut, table);
    if table in s.disk.tables.schemas {
      TableColumns(p, first);
    }
  }

  lemma TableColumns(p: Plan, i: int)
    requires Proper(p) && 0 <= i < |All(p)| && All(p)[i].MakeTable?
    ensures {"trxid", "index_in_tx"} <= All(p)[i].columns
  {
    var n, k := BlockOf(p, p.Length(), i);
    BlockPlace(p, n, k);
    assert ProperBlock(n, p.Script(n));
    assert Fits(n, k, p.Script(n)[k]);
  }
}
