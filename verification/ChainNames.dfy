/** Accounts and token contracts, read off the chain: whose row a payer or a contract has. */
module ChainNames {
  import opened Wrappers
  import opened Json
  import opened Chain
  import opened Tables
  import opened Readings
  import opened Script
  import opened Plans
  import opened BlockFacts
  import opened Collect
  import opened Machine
  import opened Replay
  import opened Confluence
  import opened Places
  import opened OpContents
  import opened ScanOrder

  // ---- the specification, with no reference to scripts ----

  /** Operation x creates an account for the payer. */
  ghost predicate CreatesAt(w: World, x: Place, payer: string, account: string) {
    exists opType, name, fields :: Taken(w, x, opType, name, fields) && CreatesAccount(name, fields, payer, account)
  }

  /** It is the first to do so. */
  ghost predicate FirstCreates(w: World, x: Place, payer: string, account: string) {
    CreatesAt(w, x, payer, account) && forall y, other :: Earlier(y, x) ==> !CreatesAt(w, y, payer, other)
  }

  /** Operation x, which succeeded, registers the contract, which has the token interface. */
  ghost predicate RegistersAt(w: World, x: Place, contract: string, row: TokenRow) {
    exists opType, name, fields, r ::
      && Taken(w, x, opType, name, fields) && IsReceiptOf(TxAt(w, x), x.o, r) && r.succeeded
      && RegistersToken(x.n, TxAt(w, x).txid, name, fields, contract, row)
  }

  ghost predicate FirstRegisters(w: World, x: Place, contract: string, row: TokenRow) {
    RegistersAt(w, x, contract, row) && forall y, other :: Earlier(y, x) ==> !RegistersAt(w, y, contract, other)
  }

  /** Some operation up to block last registers the token contract. */
  ghost predicate RegisteredBy(w: World, last: nat, contract: string) {
    exists x: Place, row :: x.n <= last && RegistersAt(w, x, contract, row)
  }

  // ---- what the script of an operation offers ----

  /** The form of an operation that is taken. */
  lemma TakenForm(w: World, x: Place, opType: nat, name: string, fields: Fields)
    requires Tried(w, x)
    ensures Taken(w, x, opType, name, fields) <==> FormOf(w, x) == Good(opType, name, fields)
  {
    ReadExactly(w.names, TxAt(w, x).ops[x.o], opType, name, fields);
  }

  lemma AccountAt(w: World, x: Place, payer: string, account: string)
    requires Tried(w, x)
    ensures SaveAccount(payer, account) in OpInstrs(w, x) <==> CreatesAt(w, x, payer, account)
  {
    var form, tx, i := FormOf(w, x), TxAt(w, x), SaveAccount(payer, account);
    forall opType, name, fields
      ensures Taken(w, x, opType, name, fields) <==> form == Good(opType, name, fields)
    {
      TakenForm(w, x, opType, name, fields);
    }
    if form.Good? {
      AugmentElsewhere(x.n, tx.txid, x.o, form.fields);
      NamesExactly(x.n, BlockAt(w, x.n), x.t, tx, x.o, form, i);
      AccountExactly(form.opName, form.fields, Augment(x.n, tx.txid, x.o, form.fields), payer, account);
      assert Taken(w, x, form.opType, form.opName, form.fields);
    } else if i in OpInstrs(w, x) {
      OthersExactly(x.n, BlockAt(w, x.n), x.t, tx, x.o, form, i);
    }
  }

  lemma TokenAt(w: World, x: Place, contract: string, row: TokenRow)
    requires Tried(w, x)
    ensures SaveToken(contract, row) in OpInstrs(w, x) <==> RegistersAt(w, x, contract, row)
  {
    var form, tx, i := FormOf(w, x), TxAt(w, x), SaveToken(contract, row);
    forall opType, name, fields
      ensures Taken(w, x, opType, name, fields) <==> form == Good(opType, name, fields)
    {
      TakenForm(w, x, opType, name, fields);
    }
    forall r ensures ReceiptFor(tx, x.o) == Some(r) <==> IsReceiptOf(tx, x.o, r) {
      ReceiptExactly(tx, x.o, r);
    }
    if form.Good? {
      var f := Augment(x.n, tx.txid, x.o, form.fields);
      AugmentElsewhere(x.n, tx.txid, x.o, form.fields);
      NamesExactly(x.n, BlockAt(w, x.n), x.t, tx, x.o, form, i);
      RegisterExactly(x.n, tx.txid, form.opName, form.fields, f, ReceiptFor(tx, x.o), contract, row);
      assert Taken(w, x, form.opType, form.opName, form.fields);
    } else if i in OpInstrs(w, x) {
      OthersExactly(x.n, BlockAt(w, x.n), x.t, tx, x.o, form, i);
    }
  }

  lemma OffersAccount(w: World, x: Place, payer: string, account: string)
    requires CreatesAt(w, x, payer, account)
    ensures OffersAt(OpLayout(w), AccountPut, x, payer)
  {
    var s := OpInstrs(w, x);
    AccountAt(w, x, payer, account);
    var r :| 0 <= r < |s| && s[r] == SaveAccount(payer, account);
    assert Offers(s, AccountPut, r, payer);
  }

  lemma OffersToken(w: World, x: Place, contract: string, row: TokenRow)
    requires RegistersAt(w, x, contract, row)
    ensures OffersAt(OpLayout(w), TokenPut, x, contract)
  {
    var s := OpInstrs(w, x);
    TokenAt(w, x, contract, row);
    var r :| 0 <= r < |s| && s[r] == SaveToken(contract, row);
    assert Offers(s, TokenPut, r, contract);
  }

  // ---- main results ----

  lemma AccountFrom(w: World, n: nat, payer: string) returns (x: Place)
    requires n <= |All(PlanOf(w))| && payer in Ideal(PlanOf(w), n).accounts
    ensures FirstCreates(w, x, payer, Ideal(PlanOf(w), n).accounts[payer]) && Start(PlanOf(w), x.n) < n
  {
    OpsLaid(w);
    AccountsCollected(All(PlanOf(w))[..n]);
    var r;
    x, r := FirstPlace(PlanOf(w), OpLayout(w), AccountPut, payer, n);
    AccountAt(w, x, payer, OpInstrs(w, x)[r].name);
    forall y, other | Earlier(y, x) ensures !CreatesAt(w, y, payer, other) {
      if CreatesAt(w, y, payer, other) {
        OffersAccount(w, y, payer, other);
      }
    }
  }

  lemma AccountThere(w: World, n: nat, x: Place, payer: string, account: string)
    requires CreatesAt(w, x, payer, account) && Start(PlanOf(w), x.n + 1) <= n <= |All(PlanOf(w))|
    ensures payer in Ideal(PlanOf(w), n).accounts
  {
    OpsLaid(w);
    OffersAccount(w, x, payer, account);
    PlaceStored(PlanOf(w), OpLayout(w), AccountPut, payer, n, x);
    AccountsCollected(All(PlanOf(w))[..n]);
  }

  /** In any run with crashes only, a payer's account row is that of the first operation of the
      chain that creates an account for it; it is there once that operation's block has been
      scanned, and not before the scan has come to that block. */
  lemma AccountsOnChain(w: World, acts: seq<Act>, payer: string)
    requires FailStop(acts)
    ensures var s := After(PlanOf(w), acts);
            && (payer in s.disk.tables.accounts ==>
                  exists x :: FirstCreates(w, x, payer, s.disk.tables.accounts[payer])
                              && Start(PlanOf(w), x.n) < s.hwm)
            && (forall x, account {:trigger CreatesAt(w, x, payer, account)} ::
                  CreatesAt(w, x, payer, account) && Start(PlanOf(w), x.n + 1) <= s.hwm ==>
                  payer in s.disk.tables.accounts)
  {
    var n := After(PlanOf(w), acts).hwm;
    PlanProper(w);
    ReplayConfluenceButHistory(PlanOf(w), acts);
    if payer in Ideal(PlanOf(w), n).accounts {
      var x := AccountFrom(w, n, payer);
    }
    forall x, account | CreatesAt(w, x, payer, account) && Start(PlanOf(w), x.n + 1) <= n
      ensures payer in Ideal(PlanOf(w), n).accounts
    {
      AccountThere(w, n, x, payer, account);
    }
  }

  lemma TokenFrom(w: World, n: nat, contract: string) returns (x: Place)
    requires n <= |All(PlanOf(w))| && contract in Ideal(PlanOf(w), n).tokens
    ensures FirstRegisters(w, x, contract, Ideal(PlanOf(w), n).tokens[contract]) && Start(PlanOf(w), x.n) < n
  {
    OpsLaid(w);
    TokensCollected(All(PlanOf(w))[..n]);
    var r;
    x, r := FirstPlace(PlanOf(w), OpLayout(w), TokenPut, contract, n);
    TokenAt(w, x, contract, OpInstrs(w, x)[r].token);
    forall y, other | Earlier(y, x) ensures !RegistersAt(w, y, contract, other) {
      if RegistersAt(w, y, contract, other) {
        OffersToken(w, y, contract, other);
      }
    }
  }

  lemma TokenThere(w: World, n: nat, x: Place, contract: string, row: TokenRow)
    requires RegistersAt(w, x, contract, row) && Start(PlanOf(w), x.n + 1) <= n <= |All(PlanOf(w))|
    ensures contract in Ideal(PlanOf(w), n).tokens
  {
    OpsLaid(w);
    OffersToken(w, x, contract, row);
    PlaceStored(PlanOf(w), OpLayout(w), TokenPut, contract, n, x);
    TokensCollected(All(PlanOf(w))[..n]);
  }

  /** The same for token contracts: the row is that of the first successful registration with
      the token interface. */
  lemma TokensOnChain(w: World, acts: seq<Act>, contract: string)
    requires FailStop(acts)
    ensures var s := After(PlanOf(w), acts);
            && (contract in s.disk.tables.tokens ==>
                  exists x :: FirstRegisters(w, x, contract, s.disk.tables.tokens[contract])
                              && Start(PlanOf(w), x.n) < s.hwm)
            && (forall x, row {:trigger RegistersAt(w, x, contract, row)} ::
                  RegistersAt(w, x, contract, row) && Start(PlanOf(w), x.n + 1) <= s.hwm ==>
                  contract in s.disk.tables.tokens)
  {
    var n := After(PlanOf(w), acts).hwm;
    PlanProper(w);
    ReplayConfluenceButHistory(PlanOf(w), acts);
    if contract in Ideal(PlanOf(w), n).tokens {
      var x := TokenFrom(w, n, contract);
    }
    forall x, row | RegistersAt(w, x, contract, row) && Start(PlanOf(w), x.n + 1) <= n
      ensures contract in Ideal(PlanOf(w), n).tokens
    {
      TokenThere(w, n, x, contract, row);
    }
  }

  lemma RegisteredThere(w: World, last: nat, contract: string) returns (x: Place, row: TokenRow)
    requires last <= |w.chain| && Start(PlanOf(w), last + 1) <= |All(PlanOf(w))|
    requires RegisteredBefore(All(PlanOf(w)), Start(PlanOf(w), last + 1), contract)
    ensures x.n <= last && RegistersAt(w, x, contract, row)
  {
    var p, n := PlanOf(w), Start(PlanOf(w), last + 1);
    OpsLaid(w);
    TokensReplayed(All(p), n, contract);
    TokensCollected(All(p)[..n]);
    var r;
    x, r := FirstUpTo(p, OpLayout(w), TokenPut, contract, last);
    row := OpInstrs(w, x)[r].token;
    TokenAt(w, x, contract, row);
  }

  lemma RegistersThere(w: World, last: nat, x: Place, contract: string, row: TokenRow)
    requires last <= |w.chain| && Start(PlanOf(w), last + 1) <= |All(PlanOf(w))|
    requires x.n <= last && RegistersAt(w, x, contract, row)
    ensures RegisteredBefore(All(PlanOf(w)), Start(PlanOf(w), last + 1), contract)
  {
    var p, n := PlanOf(w), Start(PlanOf(w), last + 1);
    OpsLaid(w);
    OffersToken(w, x, contract, row);
    StoredUpTo(p, OpLayout(w), TokenPut, contract, last, x);
    TokensCollected(All(p)[..n]);
    TokensReplayed(All(p), n, contract);
  }

  /** The scripts of the first blocks register exactly what their operations register. */
  lemma RegisteredExactly(w: World, last: nat, contract: string)
    requires last <= |w.chain|
    ensures Start(PlanOf(w), last + 1) <= |All(PlanOf(w))|
    ensures RegisteredBefore(All(PlanOf(w)), Start(PlanOf(w), last + 1), contract) <==> RegisteredBy(w, last, contract)
  {
    StartMonotone(PlanOf(w), last + 1, PlanOf(w).Length() + 1);
    if RegisteredBefore(All(PlanOf(w)), Start(PlanOf(w), last + 1), contract) {
      var x, row := RegisteredThere(w, last, contract);
    } else if RegisteredBy(w, last, contract) {
      var x: Place, row :| x.n <= last && RegistersAt(w, x, contract, row);
      RegistersThere(w, last, x, contract, row);
    }
  }
}
