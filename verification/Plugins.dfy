/** The five plugins, in the order they are registered. Each is given the rest of the block's
    script as k: what it does is exactly its part of the script, or the process dies. */
module Plugins {
  import opened Wrappers
  import opened Json
  import opened Chain
  import opened Tables
  import opened Script
  import opened Plans
  import opened BlockFacts
  import opened Machine
  import opened RowTables
  import opened Databases
  import opened Indexers
  import FixedPoint

  // ---- address balances ----

  lemma {:induction false} AssetFound(assets: seq<AssetInfo>, i: nat)
    requires DistinctAssets(assets) && i < |assets|
    ensures PrecisionIn(assets, assets[i].id) == Some(assets[i].precision)
  {
    if i > 0 {
      assert assets[0].id != assets[i].id;
      assert assets[1..][i - 1] == assets[i];
      AssetFound(assets[1..], i - 1);
    }
  }

  lemma {:induction false} AssetUnknown(assets: seq<AssetInfo>, id: string)
    requires forall i :: 0 <= i < |assets| ==> assets[i].id != id
    ensures PrecisionIn(assets, id) == None
  {
    if assets != [] {
      AssetUnknown(assets[1..], id);
    }
  }

  lemma AssetAdded(assets: seq<AssetInfo>, stored: map<string, nat>, i: nat)
    requires DistinctAssets(assets) && i < |assets| && AssetsKnown(assets, stored)
    ensures AssetsKnown(assets, stored[assets[i].id := assets[i].precision])
  {
    AssetFound(assets, i);
  }

  /** Find-or-save of one asset the node lists. */
  method StoreAsset(ix: Indexer, i: nat) returns (r: Fate)
    requires ix.Valid() && DistinctAssets(ix.w.assets) && i < |ix.w.assets|
    modifies ix`run, ix`head, ix.db`assets, ix.db`disk, ix.db`assetMap
    ensures ix.Valid() && !r.Failed? && (r.Died? ==> !ix.run.smooth)
    ensures ix.run.now == old(ix.run.now).(head := ix.run.now.head)
  {
    var item := ix.w.assets[i];
    :- ix.Must();
    var found := ix.db.FindAsset(item.id);
    if found.None? {
      :- ix.Must();
      AssetAdded(ix.w.assets, ix.db.assetMap, i);
      ix.db.SaveAsset(item.id, item.precision);
    }
    return Went;
  }

  /** The list read up to and including entry i. */
  lemma PrecisionStep(assets: seq<AssetInfo>, i: nat, id: string)
    requires DistinctAssets(assets) && i < |assets|
    ensures PrecisionIn(assets[..i + 1], id)
            == if assets[i].id == id then Some(assets[i].precision) else PrecisionIn(assets[..i], id)
  {
    assert assets[..i + 1] == assets[..i] + [assets[i]];
    PrecisionAppend(assets[..i], assets[i], id);
    if assets[i].id == id {
      AssetUnknown(assets[..i], id);
    }
  }

  lemma {:induction false} PrecisionAppend(assets: seq<AssetInfo>, a: AssetInfo, id: string)
    ensures PrecisionIn(assets + [a], id)
            == if PrecisionIn(assets, id).Some? then PrecisionIn(assets, id)
               else if a.id == id then Some(a.precision) else None
  {
    if assets != [] {
      PrecisionAppend(assets[1..], a, id);
      assert (assets + [a])[1..] == assets[1..] + [a];
    }
  }

  /** The list_assets branch: everything listed is stored, and the asset looked for is picked
      out on the way. */
  method StoreListed(ix: Indexer, id: string) returns (r: Fate, precision: Option<nat>)
    requires ix.Valid() && DistinctAssets(ix.w.assets)
    modifies ix`run, ix`head, ix.db`assets, ix.db`disk, ix.db`assetMap
    ensures ix.Valid() && !r.Failed? && (r.Died? ==> !ix.run.smooth)
    ensures ix.run.now == old(ix.run.now).(head := ix.run.now.head)
    ensures r.Went? ==> precision == PrecisionIn(ix.w.assets, id)
  {
    precision := None;
    for i := 0 to |ix.w.assets|
      invariant ix.Valid() && ix.run.now == old(ix.run.now).(head := ix.run.now.head)
      invariant precision == PrecisionIn(ix.w.assets[..i], id)
    {
      :- StoreAsset(ix, i);
      PrecisionStep(ix.w.assets, i, id);
      if ix.w.assets[i].id == id {
        precision := Some(ix.w.assets[i].precision);
      }
    }
    assert ix.w.assets[..|ix.w.assets|] == ix.w.assets;
    r := Went;
  }

  /** findAssetFromCacheOrDb */
  method FindAsset(ix: Indexer, id: string) returns (r: Fate, precision: Option<nat>)
    requires ix.Valid() && DistinctAssets(ix.w.assets)
    modifies ix`run, ix`head, ix.db`assets, ix.db`disk, ix.db`assetMap
    ensures ix.Valid() && !r.Failed? && (r.Died? ==> !ix.run.smooth)
    ensures ix.run.now == old(ix.run.now).(head := ix.run.now.head)
    ensures r.Went? ==> precision == PrecisionIn(ix.w.assets, id)
  {
    precision := None;
    :- ix.Must();
    var stored := ix.db.FindAsset(id);
    if stored.Some? {
      assert ix.db.assetMap[id] == stored.value.value;
      return Went, Some(stored.value.value);
    }
    :- ix.Must();
    r, precision := StoreListed(ix, id);
  }

  /** Insert or update, as the row was found or not. */
  method PutAddressBalance(db: Database, record: Option<Row<Cell, int>>, cell: Cell, amount: int) returns (ok: bool)
    requires db.Valid() && cell.AddressCell?
    requires if record.Some? then record.value in db.balances.rows && record.value.key == cell
             else cell !in db.balanceMap
    modifies db`balances, db`disk, db`balanceMap
    ensures db.Valid() && (ok <==> NumberFits(cell, amount))
    ensures db.disk == if ok then WithLive(old(db.disk), cell, amount) else old(db.disk)
  {
    if record.None? {
      ok := db.SaveAddressBalance(cell, amount);
    } else {
      ok := db.UpdateAddressBalance(record.value, amount);
    }
  }

  /** The row of a balance is looked up, before it is inserted or updated. */
  method LookUpAddress(ix: Indexer, cell: Cell) returns (r: Fate, record: Option<Row<Cell, int>>)
    requires ix.Valid()
    modifies ix`run, ix`head
    ensures ix.Valid() && !r.Failed? && (r.Died? ==> !ix.run.smooth)
    ensures ix.run.now == old(ix.run.now).(head := ix.run.now.head)
    ensures r.Went? ==>
              if record.Some? then record.value in ix.db.balances.rows && record.value.key == cell
              else cell !in ix.db.balanceMap
  {
    record := None;
    :- ix.Must();
    record := ix.db.FindAddressBalance(cell);
    r := ix.Must();
  }

  /** What fits a row is what the number looks like there. */
  lemma FitsShown(p: Plan, w: World, c: Cell, answer: int)
    requires NodeFits(p, w)
    ensures p.fits(c, answer) == NumberFits(c, p.shown(c, answer))
  {
  }

  /** The upsert: the node's answer, taken before, replaces what is stored; the error of a
      number that does not fit its column is fatal. */
  method StoreAddressBalance(ix: Indexer, cell: Cell, amount: int, ghost i: Instr, ghost k: seq<Instr>)
    returns (r: Fate)
    requires ix.Valid() && ix.run.now.todo == [i] + k && k != [] && ix.run.now.saving == None
    requires i.Refresh? && i.cell == cell && cell.AddressCell? && i.guard == Always
    requires ix.p.listed(cell) && ix.run.now.answer.Number? && amount == ix.p.shown(cell, ix.run.now.answer.value)
    requires ix.p.fits(cell, ix.run.now.answer.value) == NumberFits(cell, amount)
    modifies ix`run, ix`head, ix.db`balances, ix.db`disk, ix.db`balanceMap
    ensures ix.Valid() && !r.Failed? && (if r.Went? then ix.At(k) else ix.Doomed())
  {
    var db := ix.db;
    var record :- LookUpAddress(ix, cell);
    var ok := PutAddressBalance(db, record, cell, amount);
    if !ok {
      return Died;
    }
    ix.Write(i, k);
    return Went;
  }

  /** GetAddressBalances: nothing is known of an asset the node does not list. */
  method QueryBalance(ix: Indexer, cell: Cell, ghost i: Instr, ghost k: seq<Instr>) returns (r: Fate, balance: int)
    requires ix.Valid() && ix.p.ledger == ix.w.ledger
    requires ix.At([i] + k) && i.Refresh? && i.cell == cell && i.guard == Always
    modifies ix`run, ix`head
    ensures ix.Valid() && !r.Failed? && (r.Died? ==> !ix.run.smooth)
    ensures var answer := if ix.p.listed(cell) then Number(ix.run.now.head, balance) else Nothing;
            r.Went? ==> ix.run.now == old(ix.run.now).(head := ix.run.now.head, answer := answer)
  {
    balance := 0;
    :- ix.Must();
    balance := ix.w.ledger(ix.head, cell);
    ix.Query(i, k);
    r := Went;
  }

  lemma ShownAmount(p: Plan, w: World, addr: string, asset: string, balance: int)
    requires NodeFits(p, w)
    ensures var precision := PrecisionIn(w.assets, asset);
            && p.listed(AddressCell(addr, asset)) == precision.Some?
            && (precision.Some? ==>
                  p.shown(AddressCell(addr, asset), balance) == FixedPoint.Scale(balance, precision.value))
  {
    assert p.shown(AddressCell(addr, asset), balance) == Shown(w, AddressCell(addr, asset), balance);
    assert p.listed(AddressCell(addr, asset)) == Listed(w, AddressCell(addr, asset));
  }

  /** The balance, scaled by the asset's precision; an asset the node does not list is an error. */
  method AskForAmount(ix: Indexer, addr: string, asset: string, ghost i: Instr, ghost k: seq<Instr>)
    returns (r: Fate, amount: int)
    requires ix.Valid() && NodeFits(ix.p, ix.w) && DistinctAssets(ix.w.assets)
    requires ix.At([i] + k) && i.Refresh? && i.cell == AddressCell(addr, asset) && i.guard == Always
    modifies ix`run, ix`head, ix.db`assets, ix.db`disk, ix.db`assetMap
    ensures ix.Valid() && !r.Failed? && (r.Died? ==> ix.Doomed())
    ensures r.Went? ==>
              && ix.run.now.todo == [i] + k && ix.run.now.saving == None
              && ix.p.listed(i.cell) && ix.run.now.answer.Number?
              && amount == ix.p.shown(i.cell, ix.run.now.answer.value)
  {
    amount := 0;
    var balance :- QueryBalance(ix, AddressCell(addr, asset), i, k);
    var precision :- FindAsset(ix, asset);
    ShownAmount(ix.p, ix.w, addr, asset, balance);
    if precision.None? {
      return Died, amount;
    }
    return Went, FixedPoint.Scale(balance, precision.value);
  }

  /** updateAddressBalance */
  method UpdateAddressBalance(ix: Indexer, addr: string, asset: string, ghost cause: Cause, ghost k: seq<Instr>)
    returns (r: Fate)
    requires ix.Valid() && NodeFits(ix.p, ix.w) && DistinctAssets(ix.w.assets)
    requires ix.At([Refresh(AddressCell(addr, asset), Always, cause)] + k) && k != []
    modifies ix`run, ix`head, ix.db
    ensures ix.Valid() && !r.Failed? && (if r.Went? then ix.At(k) else ix.Doomed())
  {
    ghost var i := Refresh(AddressCell(addr, asset), Always, cause);
    var amount :- AskForAmount(ix, addr, asset, i, k);
    FitsShown(ix.p, ix.w, AddressCell(addr, asset), ix.run.now.answer.value);
    r := StoreAddressBalance(ix, AddressCell(addr, asset), amount, i, k);
  }

  // ---- TransferPlugin ----

  method ApplyTransfer(ix: Indexer, opName: string, f: Fields, ghost k: seq<Instr>) returns (r: Fate)
    requires ix.Valid() && NodeFits(ix.p, ix.w) && DistinctAssets(ix.w.assets)
    requires ix.At(TransferScript(opName, f) + k) && k != []
    modifies ix`run, ix`head, ix.db
    ensures ix.Valid() && !r.Failed? && (if r.Went? then ix.At(k) else ix.Doomed())
  {
    assert [] + k == k;
    if opName != "transfer_operation" {
      return Went;
    }
    var to := GetString(f, "to_addr");
    if to.None? {
      return Died;
    }
    var from := GetString(f, "from_addr");
    if from.None? || "amount" !in f || !f["amount"].JObject? {
      return Died;
    }
    var asset := GetString(f["amount"].fields, "asset_id");
    if asset.None? {
      return Went;
    }
    ghost var second := [Refresh(AddressCell(to.value, asset.value), Always, ByTransferOp)];
    assert TransferScript(opName, f) + k
        == [Refresh(AddressCell(from.value, asset.value), Always, ByTransferOp)] + (second + k);
    :- UpdateAddressBalance(ix, from.value, asset.value, ByTransferOp, second + k);
    r := UpdateAddressBalance(ix, to.value, asset.value, ByTransferOp, k);
  }

  // ---- AccountRegisterPlugin ----

  method ApplyAccountRegister(ix: Indexer, opName: string, f: Fields, ghost k: seq<Instr>) returns (r: Fate)
    requires ix.Valid() && ix.At(AccountScript(opName, f) + k) && k != []
    modifies ix`run, ix`head, ix.db
    ensures ix.Valid() && !r.Failed? && (if r.Went? then ix.At(k) else ix.Doomed())
  {
    assert [] + k == k;
    if opName != "account_create_operation" {
      return Went;
    }
    var name := GetString(f, "name");
    if name.None? {
      return Went;
    }
    var payer := GetString(f, "payer");
    if payer.None? {
      return Went;
    }
    r := StoreAccount(ix, payer.value, name.value, k);
  }

  /** Find-or-save of an account. */
  method StoreAccount(ix: Indexer, payer: string, name: string, ghost k: seq<Instr>) returns (r: Fate)
    requires ix.Valid() && ix.At([SaveAccount(payer, name)] + k) && k != []
    modifies ix`run, ix`head, ix.db
    ensures ix.Valid() && !r.Failed? && (if r.Went? then ix.At(k) else ix.Doomed())
  {
    var db := ix.db;
    :- ix.Must();
    var found := db.FindAccount(payer);
    if found.None? {
      :- ix.Must();
      var ok := db.SaveAccount(payer, name);
      if !ok {
        return Died;
      }
    }
    ix.Pop(SaveAccount(payer, name), k);
    return Went;
  }

  // ---- AssetMaybeChangePlugin ----

  /** The loops over candidate properties. */
  method TryProps(props: seq<string>, m: Fields) returns (val: string, ok: bool)
    ensures ok <==> FirstString(props, m).Some?
    ensures ok ==> val == FirstString(props, m).value
  {
    val, ok := "", false;
    for i := 0 to |props|
      invariant !ok && FirstString(props, m) == FirstString(props[i..], m)
    {
      assert props[i..][1..] == props[i + 1..];
      var v := GetString(m, props[i]);
      if v.Some? {
        return v.value, true;
      }
    }
  }

  method ApplyAssetMaybeChange(ix: Indexer, f: Fields, ghost k: seq<Instr>) returns (r: Fate)
    requires ix.Valid() && NodeFits(ix.p, ix.w) && DistinctAssets(ix.w.assets)
    requires ix.At(AssetScript(f) + k) && k != []
    modifies ix`run, ix`head, ix.db
    ensures ix.Valid() && !r.Failed? && (if r.Went? then ix.At(k) else ix.Doomed())
  {
    assert [] + k == k;
    var addr, ok := TryProps(TRY_ADDR_PROPS, f);
    if !ok || |addr| < 1 {
      return Went;
    }
    var asset;
    asset, ok := TryProps(TRY_ASSET_PROPS, f);
    if !ok || |asset| < 1 {
      if "amount" !in f || !f["amount"].JObject? {
        return Went;
      }
      var inAmount := GetString(f["amount"].fields, "asset_id");
      if inAmount.None? {
        return Went;
      }
      asset := inAmount.value;
    }
    r := UpdateAddressBalance(ix, addr, asset, ByAssetOp, k);
  }

  // ---- TokenContractCreateScanPlugin ----

  /** isAllInArray */
  method IsAllInArray(items: seq<string>, arr: seq<string>) returns (all: bool)
    ensures all <==> AllIn(items, arr)
  {
    for i := 0 to |items|
      invariant forall j :: 0 <= j < i ==> items[j] in arr
    {
      if items[i] !in arr {
        return false;
      }
    }
    return true;
  }

  /** Find-or-save of a token contract, with whatever total supply the node answered. */
  method StoreToken(ix: Indexer, contract: string, row: TokenRow, supply: Option<int>, ghost k: seq<Instr>)
    returns (r: Fate)
    requires ix.Valid() && ix.run.now.todo == [SaveToken(contract, row)] + k && k != [] && ix.run.now.saving == None
    requires ix.run.now.answer != Nothing && supply == Reply(ix.p, contract, ix.run.now.answer)
    modifies ix`run, ix`head, ix.db
    ensures ix.Valid() && !r.Failed? && (if r.Went? then ix.At(k) else ix.Doomed())
  {
    var db := ix.db;
    :- ix.Must();
    var found := db.FindTokenContract(contract);
    if found.None? {
      :- ix.Must();
      var ok := db.SaveTokenContract(contract, TokenRecord(row, supply));
      if !ok {
        return Died;
      }
    }
    ix.WriteToken(SaveToken(contract, row), k);
    return Went;
  }

  /** The queries of a registration; a failed one leaves its columns empty. */
  method RegisterToken(ix: Indexer, contract: string, row: TokenRow, ghost k: seq<Instr>) returns (r: Fate)
    requires ix.Valid() && NodeFits(ix.p, ix.w)
    requires ix.At([SaveToken(contract, row)] + k) && k != []
    modifies ix`run, ix`head, ix.db
    ensures ix.Valid() && !r.Failed? && (if r.Went? then ix.At(k) else ix.Doomed())
  {
    var baseInfo := ix.Call();
    if baseInfo.Died? {
      return Died;
    }
    var answered := ix.Call();
    if answered.Died? {
      return Died;
    }
    var supply := if answered.Went? then Some(ix.w.ledger(ix.head, SupplyCell(contract))) else None;
    ix.QuerySupply(SaveToken(contract, row), k, answered.Went?);
    r := StoreToken(ix, contract, row, supply, k);
  }

  method ApplyTokenContractCreate(ix: Indexer, num: nat, txid: string, opName: string, f: Fields,
                                  receipt: Option<Receipt>, ghost k: seq<Instr>) returns (r: Fate)
    requires ix.Valid() && NodeFits(ix.p, ix.w)
    requires ix.At(RegisterScript(num, txid, opName, f, receipt) + k) && k != []
    modifies ix`run, ix`head, ix.db
    ensures ix.Valid() && !r.Failed? && (if r.Went? then ix.At(k) else ix.Doomed())
  {
    assert [] + k == k;
    if opName != "contract_register_operation" || receipt.None? || !receipt.value.succeeded {
      return Went;
    }
    var op := DecodeRegistration(f);
    if op.None? {
      return Died;
    }
    var isToken := IsAllInArray(["transfer", "transferFrom", "approve"], op.value.abi);
    if !isToken {
      return Went;
    }
    isToken := IsAllInArray(["balanceOf", "totalSupply", "precision", "approvedBalanceFrom"], op.value.offlineAbi);
    if !isToken {
      return Went;
    }
    var row := TokenRow(num, txid, op.value.ownerPubkey, op.value.ownerAddr, op.value.inheritFrom,
                        op.value.gasPrice, op.value.gasLimit);
    r := RegisterToken(ix, op.value.contract, row, k);
  }

  // ---- TokenContractInvokeScanPlugin ----

  /** An instruction that does nothing, because its guard is shut or its row does not fit. */
  predicate Closed(d: Tables, i: Instr) {
    || ((i.Refresh? || i.Halt?) && !Open(d, i.guard))
    || (i.SaveHistory? && HistoryPut(d.tokens, i).None?)
  }

  predicate AllClosed(d: Tables, s: seq<Instr>) {
    forall i :: 0 <= i < |s| ==> Closed(d, s[i])
  }

  ghost method PassAll(ix: Indexer, s: seq<Instr>, k: seq<Instr>)
    requires ix.Sane() && ix.At(s + k) && k != [] && AllClosed(ix.run.now.disk.tables, s)
    modifies ix`run
    ensures ix.Moved(old(ix.run.now.disk), k)
    decreases s
  {
    if s == [] {
      assert s + k == k;
    } else {
      assert s + k == [s[0]] + (s[1..] + k);
      ix.Pass(s[0], s[1..] + k);
      PassAll(ix, s[1..], k);
    }
  }

  lemma {:induction false} UsersClosed(d: Tables, e: Event, arg: TransferArg, guard: Guard, users: seq<string>)
    requires !Open(d, guard)
    ensures AllClosed(d, UserRefreshes(e, arg, guard, users))
  {
    if users != [] {
      UsersClosed(d, e, arg, guard, users[1..]);
    }
  }

  lemma EventClosed(d: Tables, num: nat, txid: string, index: nat, e: Event)
    requires e.contract !in d.tokens
    ensures AllClosed(d, EventScript(num, txid, index, e))
  {
    if e.name == "Transfer" && e.arg.Some? {
      var arg := e.arg.value;
      var guard := TransferGuard(ReceiptKey(txid, index), HistoryOf(num, e, arg));
      UsersClosed(d, e, arg, guard, UsersToUpdate(arg));
    }
  }

  /** The error the event leaves behind, on these tables. */
  predicate LeavesError(d: Tables, num: nat, txid: string, index: nat, e: Event) {
    var left := Leftover(num, txid, index, e);
    left.Some? && Open(d, left.value)
  }

  /** The total supply the node has answered is stored. */
  method StoreSupply(ix: Indexer, record: Row<string, TokenRecord>, supply: int, ghost i: Instr, ghost k: seq<Instr>)
    requires ix.Valid() && record in ix.db.tokens.rows
    requires ix.run.now.todo == [i] + k && k != [] && ix.run.now.saving == None
    requires i.Refresh? && i.cell == SupplyCell(record.key)
    requires Open(ix.run.now.disk.tables, i.guard) && ix.p.listed(i.cell)
    requires ix.run.now.answer.Number? && ix.p.fits(i.cell, ix.run.now.answer.value)
    requires supply == ix.p.shown(i.cell, ix.run.now.answer.value)
    modifies ix`run, ix.db
    ensures ix.Valid() && ix.At(k) && ix.run.now.disk.tables == old(ix.run.now.disk.tables)
    ensures ix.run.smooth == old(ix.run.smooth)
  {
    var db := ix.db;
    db.UpdateTokenContract(record, supply);
    ix.Write(i, k);
  }

  /** A total supply is listed, and a text fits it. */
  lemma SupplyShown(p: Plan, w: World, contract: string, supply: int)
    requires NodeFits(p, w)
    ensures var c := SupplyCell(contract); p.listed(c) && p.fits(c, supply) && p.shown(c, supply) == supply
  {
    var c := SupplyCell(contract);
    assert p.listed(c) == Listed(w, c);
    assert p.shown(c, supply) == Shown(w, c, supply);
    assert p.fits(c, supply) == NumberFits(c, p.shown(c, supply));
  }

  /** The last part of an Inited event: the total supply is asked for and stored, or neither. */
  method UpdateInited(ix: Indexer, record: Row<string, TokenRecord>, ghost k: seq<Instr>) returns (r: Fate)
    requires ix.Valid() && NodeFits(ix.p, ix.w)
    requires record in ix.db.tokens.rows && record.key in ix.run.now.disk.tables.tokens
    requires ix.At([Refresh(SupplyCell(record.key), IfToken(record.key), ByInited)] + k) && Ready(k)
    modifies ix`run, ix`head, ix.db
    ensures ix.Valid() && !r.Failed? && (if r.Went? then ix.At(k) else ix.Doomed())
    ensures ix.run.now.disk.tables == old(ix.run.now.disk.tables)
  {
    ghost var i := Refresh(SupplyCell(record.key), IfToken(record.key), ByInited);
    var answered := ix.Call();
    if answered.Died? {
      return Died;
    }
    var supply := ix.w.ledger(ix.head, SupplyCell(record.key));
    if answered.Went? {
      ix.Query(i, k);
    }
    var updated := ix.Call();
    if updated.Died? {
      return Died;
    }
    if updated.Failed? || answered.Failed? {
      ix.SkipTo([i], k);
      return Went;
    }
    SupplyShown(ix.p, ix.w, record.key, supply);
    StoreSupply(ix, record, supply, i, k);
    return Went;
  }

  /** An Inited event: every error is only logged. */
  method ApplyInited(ix: Indexer, contract: string, ghost k: seq<Instr>) returns (r: Fate)
    requires ix.Valid() && NodeFits(ix.p, ix.w) && contract in ix.run.now.disk.tables.tokens
    requires ix.At([Refresh(SupplyCell(contract), IfToken(contract), ByInited)] + k) && Ready(k)
    modifies ix`run, ix`head, ix.db
    ensures ix.Valid() && !r.Failed? && (if r.Went? then ix.At(k) else ix.Doomed())
    ensures ix.run.now.disk.tables == old(ix.run.now.disk.tables)
  {
    var found := ix.Call();
    if found.Died? {
      return Died;
    }
    if found.Failed? {
      ix.SkipTo([Refresh(SupplyCell(contract), IfToken(contract), ByInited)], k);
      return Went;
    }
    var record := ix.db.FindTokenContract(contract);
    var baseInfo := ix.Call();
    if baseInfo.Died? {
      return Died;
    }
    r := UpdateInited(ix, record.value, k);
  }

  /** The total supply after a Transfer with an empty side; err is what is left in the
      plugin's error variable. */
  method RefreshSupply(ix: Indexer, contract: string, ghost guard: Guard, ghost cause: Cause, ghost k: seq<Instr>)
    returns (r: Fate, err: bool)
    requires ix.Valid() && NodeFits(ix.p, ix.w)
    requires contract in ix.run.now.disk.tables.tokens && Open(ix.run.now.disk.tables, guard)
    requires ix.At([Refresh(SupplyCell(contract), guard, cause)] + k) && Ready(k)
    modifies ix`run, ix`head, ix.db
    ensures ix.Valid() && !r.Failed? && (if r.Went? then ix.At(k) else ix.Doomed())
    ensures ix.run.now.disk.tables == old(ix.run.now.disk.tables)
    ensures r.Went? && err ==> !ix.run.smooth
  {
    ghost var i := Refresh(SupplyCell(contract), guard, cause);
    err := true;
    var found := ix.Call();
    if found.Died? {
      return Died, err;
    }
    if found.Failed? {
      ix.SkipTo([i], k);
      return Went, err;
    }
    var record := ix.db.FindTokenContract(contract);
    var answered := ix.Call();
    if answered.Died? {
      return Died, err;
    }
    if answered.Failed? {
      ix.SkipTo([i], k);
      return Went, err;
    }
    var supply := ix.w.ledger(ix.head, SupplyCell(contract));
    ix.Query(i, k);
    :- ix.Must();
    SupplyShown(ix.p, ix.w, contract, supply);
    StoreSupply(ix, record.value, supply, i, k);
    return Went, false;
  }

  method PutTokenBalance(db: Database, record: Option<Row<Cell, int>>, cell: Cell, amount: int) returns (ok: bool)
    requires db.Valid() && cell.TokenCell?
    requires if record.Some? then record.value in db.tokenBalances.rows && record.value.key == cell
             else cell !in db.tokenBalanceMap
    modifies db`tokenBalances, db`disk, db`tokenBalanceMap
    ensures db.Valid() && (ok <==> NumberFits(cell, amount))
    ensures db.disk == if ok then WithLive(old(db.disk), cell, amount) else old(db.disk)
  {
    if record.None? {
      ok := db.SaveTokenBalance(cell, amount);
    } else {
      ok := db.UpdateTokenBalance(record.value, amount);
    }
  }

  method LookUpTokenBalance(ix: Indexer, cell: Cell) returns (r: Fate, record: Option<Row<Cell, int>>)
    requires ix.Valid()
    modifies ix`run, ix`head
    ensures ix.Valid() && !r.Failed? && (r.Died? ==> !ix.run.smooth)
    ensures ix.run.now == old(ix.run.now).(head := ix.run.now.head)
    ensures r.Went? ==>
              if record.Some? then record.value in ix.db.tokenBalances.rows && record.value.key == cell
              else cell !in ix.db.tokenBalanceMap
  {
    record := None;
    :- ix.Must();
    record := ix.db.FindTokenBalance(cell);
    r := ix.Must();
  }

  method StoreTokenBalance(ix: Indexer, cell: Cell, amount: int, ghost i: Instr, ghost k: seq<Instr>) returns (r: Fate)
    requires ix.Valid() && ix.run.now.todo == [i] + k && k != [] && ix.run.now.saving == None
    requires i.Refresh? && i.cell == cell && cell.TokenCell? && Open(ix.run.now.disk.tables, i.guard)
    requires ix.p.listed(cell) && ix.run.now.answer.Number? && amount == ix.p.shown(cell, ix.run.now.answer.value)
    requires ix.p.fits(cell, ix.run.now.answer.value) == NumberFits(cell, amount)
    modifies ix`run, ix`head, ix.db
    ensures ix.Valid() && !r.Failed? && (if r.Went? then ix.At(k) else ix.Doomed())
    ensures ix.run.now.disk.tables == old(ix.run.now.disk.tables)
  {
    var db := ix.db;
    var record :- LookUpTokenBalance(ix, cell);
    var ok := PutTokenBalance(db, record, cell, amount);
    if !ok {
      return Died;
    }
    ix.Write(i, k);
    return Went;
  }

  /** One user of usersToUpdate. */
  method RefreshTokenBalance(ix: Indexer, contract: string, user: string, ghost guard: Guard, ghost cause: Cause,
                             ghost k: seq<Instr>) returns (r: Fate, err: bool)
    requires ix.Valid() && NodeFits(ix.p, ix.w) && Open(ix.run.now.disk.tables, guard)
    requires ix.At([Refresh(TokenCell(contract, user), guard, cause)] + k) && Ready(k)
    modifies ix`run, ix`head, ix.db
    ensures ix.Valid() && !r.Failed? && (if r.Went? then ix.At(k) else ix.Doomed())
    ensures ix.run.now.disk.tables == old(ix.run.now.disk.tables)
    ensures r.Went? && err ==> !ix.run.smooth
  {
    ghost var i := Refresh(TokenCell(contract, user), guard, cause);
    err := true;
    var answered := ix.Call();
    if answered.Died? {
      return Died, err;
    }
    if answered.Failed? {
      ix.SkipTo([i], k);
      return Went, err;
    }
    var balance := ix.w.ledger(ix.head, TokenCell(contract, user));
    ix.Query(i, k);
    FitsShown(ix.p, ix.w, TokenCell(contract, user), balance);
    r := StoreTokenBalance(ix, TokenCell(contract, user), balance, i, k);
    err := false;
  }

  /** SaveTokenContractTransferHistory; refused says that the row does not fit its columns. */
  method SaveHistory(ix: Indexer, key: ReceiptKey, row: HistoryRow, ghost k: seq<Instr>)
    returns (r: Fate, refused: bool)
    requires ix.Valid() && row.contract in ix.run.now.disk.tables.tokens && key !in ix.run.now.disk.tables.history
    requires ix.At([Instr.SaveHistory(key, row)] + k) && k != []
    modifies ix`run, ix`head, ix.db
    ensures ix.Valid() && ix.run.now.disk.tables.tokens == old(ix.run.now.disk.tables.tokens)
    ensures r.Went? ==>
              ix.At(k) && refused == !HistoryFits(key, row) && refused == (key !in ix.run.now.disk.tables.history)
    ensures r.Failed? ==> ix.At([Instr.SaveHistory(key, row)] + k)
    ensures !r.Went? ==> !ix.run.smooth
  {
    var db := ix.db;
    refused := false;
    :- ix.Call();
    var ok := db.SaveHistory(key, row);
    if ok {
      ix.Pop(Instr.SaveHistory(key, row), k);
    } else {
      ix.Pass(Instr.SaveHistory(key, row), k);
    }
    return Went, !ok;
  }

  /** Find-or-save of the transfer history; errors are left to the caller. */
  method StoreHistory(ix: Indexer, key: ReceiptKey, row: HistoryRow, ghost k: seq<Instr>)
    returns (r: Fate, refused: bool)
    requires ix.Valid() && row.contract in ix.run.now.disk.tables.tokens
    requires ix.At([Instr.SaveHistory(key, row)] + k) && k != []
    modifies ix`run, ix`head, ix.db
    ensures ix.Valid() && ix.run.now.disk.tables.tokens == old(ix.run.now.disk.tables.tokens)
    ensures r.Went? ==>
              ix.At(k) && (refused ==> !HistoryFits(key, row)) && refused == (key !in ix.run.now.disk.tables.history)
    ensures r.Failed? ==> ix.At([Instr.SaveHistory(key, row)] + k)
    ensures !r.Went? ==> !ix.run.smooth
  {
    var db := ix.db;
    refused := false;
    :- ix.Call();
    var item := db.FindHistory(key);
    if item.None? {
      r, refused := SaveHistory(ix, key, row, k);
    } else {
      ix.Pop(Instr.SaveHistory(key, row), k);
      r := Went;
    }
  }

  lemma TransferHead(num: nat, txid: string, index: nat, e: Event, arg: TransferArg, k: seq<Instr>)
    ensures var key, row := ReceiptKey(txid, index), HistoryOf(num, e, arg);
            var guard := TransferGuard(key, row);
            TransferEventScript(num, txid, index, e, arg) + k
            == [Instr.SaveHistory(key, row)] + (UsersScript(e, arg, guard) + (SupplyScript(e, arg, guard) + k))
  {
  }

  lemma {:induction false} UsersDroppable(e: Event, arg: TransferArg, guard: Guard, users: seq<string>)
    ensures forall i :: 0 <= i < |UserRefreshes(e, arg, guard, users)| ==>
              UserRefreshes(e, arg, guard, users)[i].Refresh?
  {
    if users != [] {
      UsersDroppable(e, arg, guard, users[1..]);
    }
  }

  /** The users loop: every balance the node answers for is stored. */
  method RefreshUsers(ix: Indexer, e: Event, arg: TransferArg, users: seq<string>, ghost guard: Guard,
                      ghost k: seq<Instr>)
    returns (r: Fate, err: bool)
    requires ix.Valid() && NodeFits(ix.p, ix.w) && Open(ix.run.now.disk.tables, guard)
    requires ix.At(UserRefreshes(e, arg, guard, users) + k) && Ready(k)
    modifies ix`run, ix`head, ix.db
    ensures ix.Valid() && !r.Failed? && (if r.Went? then ix.At(k) else ix.Doomed())
    ensures ix.run.now.disk.tables == old(ix.run.now.disk.tables)
    ensures r.Went? && err ==> !ix.run.smooth
  {
    err := false;
    assert users[0..] == users;
    for i := 0 to |users|
      invariant err ==> !ix.run.smooth
      invariant ix.Valid() && ix.At(UserRefreshes(e, arg, guard, users[i..]) + k)
      invariant ix.run.now.disk.tables == old(ix.run.now.disk.tables)
    {
      ghost var rest := UserRefreshes(e, arg, guard, users[i + 1..]);
      assert users[i..][1..] == users[i + 1..];
      assert UserRefreshes(e, arg, guard, users[i..]) + k
          == [Refresh(TokenCell(e.contract, users[i]), guard, ByTransferEvent(arg.from, arg.to))] + (rest + k);
      UsersDroppable(e, arg, guard, users[i + 1..]);
      err :- RefreshTokenBalance(ix, e.contract, users[i], guard, ByTransferEvent(arg.from, arg.to), rest + k);
    }
    assert UserRefreshes(e, arg, guard, []) + k == k;
    r := Went;
  }

  /** The balances of the distinct non-empty sides, and the total supply if a side is empty. */
  method RefreshSides(ix: Indexer, e: Event, arg: TransferArg, ghost guard: Guard, ghost k: seq<Instr>)
    returns (r: Fate, err: bool)
    requires ix.Valid() && NodeFits(ix.p, ix.w)
    requires e.contract in ix.run.now.disk.tables.tokens && Open(ix.run.now.disk.tables, guard)
    requires ix.At(UsersScript(e, arg, guard) + (SupplyScript(e, arg, guard) + k)) && Ready(k)
    modifies ix`run, ix`head, ix.db
    ensures ix.Valid() && !r.Failed? && (if r.Went? then ix.At(k) else ix.Doomed())
    ensures ix.run.now.disk.tables == old(ix.run.now.disk.tables)
    ensures r.Went? && err ==> !ix.run.smooth
  {
    ghost var supplies := SupplyScript(e, arg, guard);
    var users := [];
    if |arg.from| > 0 {
      users := users + [arg.from];
    }
    if |arg.to| > 0 && arg.to != arg.from {
      users := users + [arg.to];
    }
    assert users == UsersToUpdate(arg);
    err :- RefreshUsers(ix, e, arg, users, guard, supplies + k);
    if |arg.from| < 1 || |arg.to| < 1 {
      err :- RefreshSupply(ix, e.contract, guard, ByTransferEvent(arg.from, arg.to), k);
    } else {
      assert supplies + k == k;
    }
    r := Went;
  }

  /** A Transfer event of a token contract. */
  method ApplyTransferEvent(ix: Indexer, num: nat, txid: string, index: nat, e: Event, arg: TransferArg,
                            ghost k: seq<Instr>)
    returns (r: Fate, err: bool)
    requires ix.Valid() && NodeFits(ix.p, ix.w) && e.contract in ix.run.now.disk.tables.tokens
    requires e.name == "Transfer" && e.arg == Some(arg)
    requires ix.At(TransferEventScript(num, txid, index, e, arg) + k) && Ready(k)
    modifies ix`run, ix`head, ix.db
    ensures ix.Valid() && !r.Failed? && (if r.Went? then ix.At(k) else ix.Doomed())
    ensures r.Went? && LeavesError(ix.run.now.disk.tables, num, txid, index, e) ==> err
    ensures r.Went? && err && ix.run.smooth ==> LeavesError(ix.run.now.disk.tables, num, txid, index, e)
  {
    err := true;
    var key, row := ReceiptKey(txid, index), HistoryOf(num, e, arg);
    ghost var guard := TransferGuard(key, row);
    ghost var rest := UsersScript(e, arg, guard) + SupplyScript(e, arg, guard);
    TransferHead(num, txid, index, e, arg, k);
    var stored, refused := StoreHistory(ix, key, row, UsersScript(e, arg, guard) + (SupplyScript(e, arg, guard) + k));
    if stored.Died? {
      return Died, err;
    }
    UsersDroppable(e, arg, guard, UsersToUpdate(arg));
    if stored.Failed? {
      ix.SkipTo(TransferEventScript(num, txid, index, e, arg), k);
      return Went, err;
    }
    if refused {
      Assoc(UsersScript(e, arg, guard), SupplyScript(e, arg, guard), k);
      UsersClosed(ix.run.now.disk.tables, e, arg, guard, UsersToUpdate(arg));
      PassAll(ix, rest, k);
      return Went, err;
    }
    r, err := RefreshSides(ix, e, arg, guard, k);
  }

  /** One round of the event loop. err is the error the round leaves behind. */
  method ApplyEvent(ix: Indexer, num: nat, txid: string, index: nat, e: Event, ghost k: seq<Instr>)
    returns (r: Fate, err: bool)
    requires ix.Valid() && NodeFits(ix.p, ix.w)
    requires ix.At(EventScript(num, txid, index, e) + k) && Ready(k)
    modifies ix`run, ix`head, ix.db
    ensures ix.Valid() && !r.Failed? && (if r.Went? then ix.At(k) else ix.Doomed())
    ensures r.Went? && LeavesError(ix.run.now.disk.tables, num, txid, index, e) ==> err
    ensures r.Went? && err && ix.run.smooth ==> LeavesError(ix.run.now.disk.tables, num, txid, index, e)
  {
    err := false;
    :- ix.Must();
    var token := ix.db.FindTokenContract(e.contract);
    if token.None? {
      EventClosed(ix.run.now.disk.tables, num, txid, index, e);
      PassAll(ix, EventScript(num, txid, index, e), k);
      return Went, err;
    }
    assert [] + k == k;
    if e.name == "Inited" {
      r := ApplyInited(ix, e.contract, k);
    } else if e.name == "Transfer" {
      if e.arg.None? {
        return Went, true;
      }
      r, err := ApplyTransferEvent(ix, num, txid, index, e, e.arg.value, k);
    } else {
      r := Went;
    }
  }

  lemma Assoc<T>(a: seq<T>, b: seq<T>, c: seq<T>)
    ensures (a + b) + c == a + (b + c)
  {
  }

  lemma Assoc3<T>(a: seq<T>, b: seq<T>, c: seq<T>, k: seq<T>)
    ensures (a + (b + c)) + k == a + (b + (c + k))
  {
    Assoc(a, b + c, k);
    Assoc(b, c, k);
  }

  lemma Assoc5<T>(a: seq<T>, b: seq<T>, c: seq<T>, d: seq<T>, e: seq<T>, k: seq<T>)
    ensures (a + (b + (c + (d + e)))) + k == a + (b + (c + (d + (e + k))))
  {
    Assoc3(a, b, c + (d + e), k);
    Assoc3(c, d, e, k);
  }

  lemma ReadyAfter(s: seq<Instr>, k: seq<Instr>)
    requires OnlyPlugins(s) && Ready(k)
    ensures Ready(s + k)
  {
  }

  /** The event loop. */
  method ApplyEvents(ix: Indexer, num: nat, txid: string, index: nat, events: seq<Event>, ghost k: seq<Instr>)
    returns (r: Fate, err: bool)
    requires ix.Valid() && NodeFits(ix.p, ix.w)
    requires ix.At(EventsScript(num, txid, index, events) + k) && Ready(k)
    modifies ix`run, ix`head, ix.db
    ensures ix.Valid() && !r.Failed? && (if r.Went? then ix.At(k) else ix.Doomed())
    ensures r.Went? && events != [] ==>
              LeavesError(ix.run.now.disk.tables, num, txid, index, events[|events| - 1]) ==> err
    ensures r.Went? && err && ix.run.smooth ==>
              events != [] && LeavesError(ix.run.now.disk.tables, num, txid, index, events[|events| - 1])
  {
    err := false;
    assert events[0..] == events;
    for i := 0 to |events|
      invariant ix.Valid() && ix.At(EventsScript(num, txid, index, events[i..]) + k)
      invariant i > 0 && LeavesError(ix.run.now.disk.tables, num, txid, index, events[i - 1]) ==> err
      invariant err && ix.run.smooth ==> i > 0 && LeavesError(ix.run.now.disk.tables, num, txid, index, events[i - 1])
    {
      ghost var first := EventScript(num, txid, index, events[i]);
      ghost var rest := EventsScript(num, txid, index, events[i + 1..]);
      assert events[i..][1..] == events[i + 1..];
      Assoc(first, rest, k);
      EventsOnly(num, txid, index, events[i + 1..]);
      ReadyAfter(rest, k);
      err :- ApplyEvent(ix, num, txid, index, events[i], rest + k);
    }
    assert EventsScript(num, txid, index, []) + k == k;
    r := Went;
  }

  /** The deposit loop; err enters as the events left it. */
  method ApplyDeposits(ix: Indexer, deposits: seq<Json>, left: bool, ghost k: seq<Instr>) returns (r: Fate, err: bool)
    requires ix.Valid() && NodeFits(ix.p, ix.w) && DistinctAssets(ix.w.assets)
    requires ix.At(DepositsScript(deposits) + k) && k != []
    modifies ix`run, ix`head, ix.db
    ensures ix.Valid() && !r.Failed? && (if r.Went? then ix.At(k) else ix.Doomed())
    ensures r.Went? && DepositsScript(deposits) == [] ==> err == left && ix.run == old(ix.run)
    ensures r.Went? && err ==> left && DepositsScript(deposits) == []
  {
    err := left;
    assert deposits[0..] == deposits;
    for i := 0 to |deposits|
      invariant ix.Valid() && ix.At(DepositsScript(deposits[i..]) + k)
      invariant DepositsScript(deposits) == [] ==>
                  DepositsScript(deposits[i..]) == [] && err == left && ix.run == old(ix.run)
      invariant err ==> left && DepositsScript(deposits) == DepositsScript(deposits[i..])
    {
      ghost var rest := DepositsScript(deposits[i + 1..]);
      assert deposits[i..][1..] == deposits[i + 1..];
      var pair := DepositPair(deposits[i]);
      if pair.Some? {
        Assoc([Refresh(AddressCell(pair.value.0, pair.value.1), Always, ByDeposit)], rest, k);
        :- UpdateAddressBalance(ix, pair.value.0, pair.value.1, ByDeposit, rest + k);
        err := false;
      } else {
        assert DepositsScript(deposits[i..]) == rest;
      }
    }
    assert DepositsScript([]) + k == k;
    r := Went;
  }

  /** The events, then the deposits; what is left of the error is returned. */
  method ApplyReceipt(ix: Indexer, num: nat, txid: string, index: nat, receipt: Receipt, ghost k: seq<Instr>)
    returns (r: Fate)
    requires ix.Valid() && NodeFits(ix.p, ix.w) && DistinctAssets(ix.w.assets) && Ready(k)
    requires ix.At(EventsScript(num, txid, index, receipt.events)
                   + (DepositsScript(receipt.deposits) + (LeftoverScript(num, txid, index, receipt) + k)))
    modifies ix`run, ix`head, ix.db
    ensures ix.Valid() && !r.Failed? && (if r.Went? then ix.At(k) else ix.Doomed())
  {
    var events, deposits := receipt.events, receipt.deposits;
    ghost var leftover := LeftoverScript(num, txid, index, receipt);
    DepositsOnly(deposits);
    ReadyAfter(leftover, k);
    ReadyAfter(DepositsScript(deposits), leftover + k);
    var err;
    err :- ApplyEvents(ix, num, txid, index, events, DepositsScript(deposits) + (leftover + k));
    err :- ApplyDeposits(ix, deposits, err, leftover + k);
    if err {
      return Died;
    }
    PassAll(ix, leftover, k);
    return Went;
  }

  method ApplyTokenContractInvoke(ix: Indexer, num: nat, block: Block, txid: string, index: nat,
                                  receipt: Option<Receipt>, ghost k: seq<Instr>) returns (r: Fate)
    requires ix.Valid() && NodeFits(ix.p, ix.w) && DistinctAssets(ix.w.assets)
    requires ix.At(InvokeScript(num, block, txid, index, receipt) + k) && Ready(k)
    modifies ix`run, ix`head, ix.db
    ensures ix.Valid() && !r.Failed? && (if r.Went? then ix.At(k) else ix.Doomed())
  {
    assert [] + k == k;
    if receipt.None? || !receipt.value.succeeded {
      return Went;
    }
    if !block.timestampParses {
      return Died;
    }
    Assoc3(EventsScript(num, txid, index, receipt.value.events), DepositsScript(receipt.value.deposits),
           LeftoverScript(num, txid, index, receipt.value), k);
    r := ApplyReceipt(ix, num, txid, index, receipt.value, k);
  }

  /** ApplyPluginsToOperation */
  method ApplyPlugins(ix: Indexer, num: nat, block: Block, txid: string, index: nat, opName: string, f: Fields,
                      receipt: Option<Receipt>, ghost k: seq<Instr>) returns (r: Fate)
    requires ix.Valid() && NodeFits(ix.p, ix.w) && DistinctAssets(ix.w.assets)
    requires ix.At(PluginsScript(num, block, txid, index, opName, f, receipt) + k) && Ready(k)
    modifies ix`run, ix`head, ix.db
    ensures ix.Valid() && !r.Failed? && (if r.Went? then ix.At(k) else ix.Doomed())
  {
    ghost var a, b, c := TransferScript(opName, f), AccountScript(opName, f), AssetScript(f);
    ghost var d, e := RegisterScript(num, txid, opName, f, receipt), InvokeScript(num, block, txid, index, receipt);
    Assoc5(a, b, c, d, e, k);
    :- ApplyTransfer(ix, opName, f, b + (c + (d + (e + k))));
    :- ApplyAccountRegister(ix, opName, f, c + (d + (e + k)));
    :- ApplyAssetMaybeChange(ix, f, d + (e + k));
    :- ApplyTokenContractCreate(ix, num, txid, opName, f, receipt, e + k);
    r := ApplyTokenContractInvoke(ix, num, block, txid, index, receipt, k);
  }
}
