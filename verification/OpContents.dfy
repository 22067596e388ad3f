/** What the script of an operation contains, exactly, in terms of its JSON and its receipt. */
module OpContents {
  import opened Wrappers
  import opened Numerals
  import opened Json
  import opened Chain
  import opened Tables
  import opened Readings
  import opened Script

  // ---- reading the pair ----

  lemma ReadExactly(names: seq<string>, op: seq<Json>, opType: nat, name: string, fields: Fields)
    ensures ReadOp(names, op) == Good(opType, name, fields)
            <==> IsOp(names, op, opType, name, fields) && !NeedsQuotes(name)
    ensures IsOp(names, op, opType, name, fields) && NeedsQuotes(name) ==>
              ReadOp(names, op) == Unquoted(name, fields)
    ensures ReadOp(names, op) == Unquoted(name, fields) ==>
              NeedsQuotes(name) && exists t :: IsOp(names, op, t, name, fields)
    ensures ReadOp(names, op) == Panics <==> |op| == 2 && op[0] == JNull
  {
    if ReadOp(names, op) == Unquoted(name, fields) {
      assert IsOp(names, op, Atoi(op[0].literal).value, name, fields);
    }
  }

  lemma LeadExactly(tx: Tx, opType: int)
    ensures Leading(tx) == LeadOk(opType) <==> LeadsWith(tx, opType)
  {
  }

  lemma ContractExactly(tx: Tx)
    ensures HasContractOp(tx.ops) <==> IsContractTx(tx)
  {
    if HasContractOp(tx.ops) {
      var i :| 0 <= i < |tx.ops| && NamesContract(tx.ops[i]);
      assert IsInteger(tx.ops[i][0], Atoi(tx.ops[i][0].literal).value);
    }
    if IsContractTx(tx) {
      var i :| 0 <= i < |tx.ops| && |tx.ops[i]| >= 2 && exists t :: 76 <= t <= 81 && IsInteger(tx.ops[i][0], t);
      assert NamesContract(tx.ops[i]);
    }
  }

  lemma FetchExactly(tx: Tx)
    ensures FetchedReceipts(tx) == if IsContractTx(tx) then tx.receipts else []
  {
    ContractExactly(tx);
  }

  lemma ReceiptExactly(tx: Tx, o: nat, r: Receipt)
    ensures ReceiptFor(tx, o) == Some(r) <==> IsReceiptOf(tx, o, r)
  {
    FetchExactly(tx);
  }

  // ---- the stored JSON ----

  lemma AugmentExactly(num: nat, txid: string, o: nat, fields: Fields, f: Fields)
    ensures f == Augment(num, txid, o, fields) <==> IsStoredJson(num, txid, o, fields, f)
  {
    var g := Augment(num, txid, o, fields);
    assert IsStoredJson(num, txid, o, fields, g);
    if IsStoredJson(num, txid, o, fields, f) {
      assert f.Keys == g.Keys;
      assert forall k :: k in f ==> f[k] == g[k];
    }
  }

  /** The five added properties. */
  predicate Added(k: string) {
    k in {"block_num", "trxid", "index_in_tx", "memo", "guarantee_id"}
  }

  /** Nothing but these is different in f. */
  ghost predicate SameElsewhere(f: Fields, fields: Fields) {
    forall k :: !Added(k) ==> (k in f <==> k in fields) && (k in f ==> f[k] == fields[k])
  }

  lemma AugmentElsewhere(num: nat, txid: string, o: nat, fields: Fields)
    ensures SameElsewhere(Augment(num, txid, o, fields), fields)
  {
  }

  lemma {:induction false} PresentExactly(keys: seq<string>, f: Fields, v: string)
    ensures FirstPresent(keys, f) == v
            <==> || (exists i: nat :: IsFirstKey(f, keys, i) && f[keys[i]] == JString(v))
                 || (v == "" && forall i: nat :: IsFirstKey(f, keys, i) ==> !f[keys[i]].JString?)
  {
    if keys != [] {
      if keys[0] in f {
        assert IsFirstKey(f, keys, 0);
      } else {
        PresentExactly(keys[1..], f, v);
        forall i: nat ensures IsFirstKey(f, keys, i) <==> i > 0 && IsFirstKey(f, keys[1..], i - 1) {
          if i > 0 && IsFirstKey(f, keys[1..], i - 1) {
            forall j | 0 <= j < i ensures keys[j] !in f {
              assert j > 0 ==> keys[1..][j - 1] !in f;
            }
          }
        }
        forall i: nat | IsFirstKey(f, keys[1..], i) ensures IsFirstKey(f, keys, i + 1) {
        }
      }
    }
  }

  // ---- the plugins ----

  lemma {:induction false} FirstExactly(keys: seq<string>, f: Fields, v: string)
    ensures FirstString(keys, f) == Some(v) <==> FirstText(f, keys, v)
  {
    if keys != [] {
      FirstExactly(keys[1..], f, v);
      if FirstText(f, keys, v) {
        var i :| 0 <= i < |keys| && IsText(f, keys[i], v) && forall j :: 0 <= j < i ==> !HasText(f, keys[j]);
        if i > 0 {
          assert !HasText(f, keys[0]) && IsText(f, keys[1..][i - 1], v);
        }
      }
      if !HasText(f, keys[0]) && FirstText(f, keys[1..], v) {
        var i :| 0 <= i < |keys| - 1 && IsText(f, keys[1..][i], v)
                 && forall j :: 0 <= j < i ==> !HasText(f, keys[1..][j]);
        assert IsText(f, keys[i + 1], v);
        forall j | 0 <= j < i + 1 ensures !HasText(f, keys[j]) {
          assert j > 0 ==> !HasText(f, keys[1..][j - 1]);
        }
      }
    }
  }

  lemma TransferExactly(name: string, fields: Fields, f: Fields, from: string, to: string, asset: string)
    requires SameElsewhere(f, fields)
    ensures Transfers(name, fields, from, to, asset) ==>
              TransferScript(name, f) == [Refresh(AddressCell(from, asset), Always, ByTransferOp),
                                          Refresh(AddressCell(to, asset), Always, ByTransferOp)]
    ensures TransferScript(name, f) == [Halt(Always)] <==> BadTransfer(name, fields)
  {
  }

  lemma TransferRead(name: string, fields: Fields, f: Fields) returns (from: string, to: string, asset: string)
    requires SameElsewhere(f, fields)
    ensures Transfers(name, fields, from, to, asset) || BadTransfer(name, fields) || TransferScript(name, f) == []
  {
    from, to, asset := "", "", "";
    if name == "transfer_operation" && !BadTransfer(name, fields) && HasText(fields["amount"].fields, "asset_id") {
      from, to, asset := fields["from_addr"].s, fields["to_addr"].s, fields["amount"].fields["asset_id"].s;
    }
  }

  lemma AccountExactly(name: string, fields: Fields, f: Fields, payer: string, account: string)
    requires SameElsewhere(f, fields)
    ensures SaveAccount(payer, account) in AccountScript(name, f) <==> CreatesAccount(name, fields, payer, account)
  {
  }

  lemma {:induction false} FirstElsewhere(f: Fields, fields: Fields, keys: seq<string>, v: string)
    requires SameElsewhere(f, fields) && forall i :: 0 <= i < |keys| ==> !Added(keys[i])
    ensures FirstText(f, keys, v) <==> FirstText(fields, keys, v)
  {
    forall i | 0 <= i < |keys|
      ensures IsText(f, keys[i], v) <==> IsText(fields, keys[i], v)
      ensures HasText(f, keys[i]) <==> HasText(fields, keys[i])
    {
    }
  }

  lemma AssetExactly(fields: Fields, f: Fields, addr: string, asset: string)
    requires SameElsewhere(f, fields)
    ensures Refresh(AddressCell(addr, asset), Always, ByAssetOp) in AssetScript(f) <==> Touches(fields, addr, asset)
  {
    var assets := ["asset_id", "lock_asset_id", "foreclose_asset_id"];
    FirstExactly(TRY_ADDR_PROPS, f, addr);
    FirstElsewhere(f, fields, TRY_ADDR_PROPS, addr);
    forall v ensures FirstString(TRY_ASSET_PROPS, f) == Some(v) <==> FirstText(fields, assets, v) {
      FirstExactly(TRY_ASSET_PROPS, f, v);
      FirstElsewhere(f, fields, TRY_ASSET_PROPS, v);
    }
  }

  lemma {:induction false} StringsExactly(items: seq<Json>)
    ensures Strings(items).Some? <==> forall i :: 0 <= i < |items| ==> items[i].JString?
    ensures Strings(items).Some? ==> |Strings(items).value| == |items|
    ensures Strings(items).Some? ==> forall i :: 0 <= i < |items| ==> items[i] == JString(Strings(items).value[i])
  {
    if items != [] {
      StringsExactly(items[1..]);
      assert forall i :: 0 < i < |items| ==> items[i] == items[1..][i - 1];
    }
  }

  lemma ListExactly(f: Fields, key: string, wanted: seq<string>)
    requires key in f
    ensures ListsTexts(f, key, wanted) <==> StringArray(f[key]).Some? && AllIn(wanted, StringArray(f[key]).value)
    ensures ListsTexts(f, key, []) <==> StringArray(f[key]).Some?
  {
    if f[key].JArray? {
      var items := f[key].items;
      StringsExactly(items);
      if Strings(items).Some? {
        var arr := Strings(items).value;
        forall i | 0 <= i < |wanted| ensures wanted[i] in arr <==> JString(wanted[i]) in items {
          if wanted[i] in arr {
            var j :| 0 <= j < |arr| && arr[j] == wanted[i];
            assert items[j] == JString(wanted[i]);
          }
        }
      }
    }
  }

  lemma DecodeExactly(fields: Fields, f: Fields)
    requires SameElsewhere(f, fields)
    ensures DecodeRegistration(f).Some? <==> Decodes(fields)
  {
    if IsObject(fields, "contract_code") {
      var code := fields["contract_code"].fields;
      if "abi" in code && "offline_abi" in code {
        ListExactly(code, "abi", []);
        ListExactly(code, "offline_abi", []);
      }
    }
  }

  lemma TokenExactly(fields: Fields, f: Fields)
    requires SameElsewhere(f, fields) && Decodes(fields)
    ensures var r, code := DecodeRegistration(f), fields["contract_code"].fields;
            r.Some? && (IsToken(r.value)
                        <==> ListsTexts(code, "abi", ["transfer", "transferFrom", "approve"])
                             && ListsTexts(code, "offline_abi",
                                           ["balanceOf", "totalSupply", "precision", "approvedBalanceFrom"]))
  {
    DecodeExactly(fields, f);
    var code := fields["contract_code"].fields;
    ListExactly(code, "abi", ["transfer", "transferFrom", "approve"]);
    ListExactly(code, "offline_abi", ["balanceOf", "totalSupply", "precision", "approvedBalanceFrom"]);
  }

  lemma TokenRowExactly(num: nat, txid: string, fields: Fields, f: Fields, contract: string, row: TokenRow)
    requires SameElsewhere(f, fields) && Decodes(fields)
    ensures var d := DecodeRegistration(f);
            && d.Some?
            && (contract == d.value.contract
                && row == TokenRow(num, txid, d.value.ownerPubkey, d.value.ownerAddr, d.value.inheritFrom,
                                   d.value.gasPrice, d.value.gasLimit)
                <==> IsText(fields, "contract_id", contract) && row.blockNum == num && row.txid == txid
                     && IsText(fields, "owner_pubkey", row.ownerPubkey) && IsText(fields, "owner_addr", row.ownerAddr)
                     && IsText(fields, "inherit_from", row.inheritFrom)
                     && IsUint64(fields, "gas_price", row.gasPrice) && IsUint64(fields, "init_cost", row.gasLimit))
  {
    DecodeExactly(fields, f);
  }

  lemma RegisterExactly(num: nat, txid: string, name: string, fields: Fields, f: Fields, r: Option<Receipt>,
                        contract: string, row: TokenRow)
    requires SameElsewhere(f, fields)
    ensures SaveToken(contract, row) in RegisterScript(num, txid, name, f, r)
            <==> r.Some? && r.value.succeeded && RegistersToken(num, txid, name, fields, contract, row)
  {
    if Decodes(fields) {
      TokenExactly(fields, f);
      TokenRowExactly(num, txid, fields, f, contract, row);
    } else {
      DecodeExactly(fields, f);
    }
  }

  lemma BadRegistration(num: nat, txid: string, name: string, fields: Fields, f: Fields, r: Option<Receipt>)
    requires SameElsewhere(f, fields)
    ensures Halt(Always) in RegisterScript(num, txid, name, f, r)
            <==> r.Some? && r.value.succeeded && name == "contract_register_operation" && !Decodes(fields)
  {
    DecodeExactly(fields, f);
  }

  lemma {:induction false} DepositsExactly(deposits: seq<Json>, addr: string, asset: string)
    ensures Refresh(AddressCell(addr, asset), Always, ByDeposit) in DepositsScript(deposits)
            <==> Deposits(deposits, addr, asset)
  {
    if deposits != [] {
      DepositsExactly(deposits[1..], addr, asset);
      assert deposits == [deposits[0]] + deposits[1..];
      DepositExactly(deposits[0], addr, asset);
    }
  }

  lemma DepositExactly(d: Json, addr: string, asset: string)
    ensures DepositPair(d) == Some((addr, asset)) <==> Deposits([d], addr, asset)
  {
  }

  // ---- which part of an operation's script an instruction is in ----

  /** Asked for by the invoke plugin because of an event. */
  predicate OfEvent(i: Instr) {
    i.SaveHistory? || (i.Refresh? && !i.cell.AddressCell?)
  }

  predicate AllOfEvents(s: seq<Instr>) {
    forall k :: 0 <= k < |s| ==> OfEvent(s[k])
  }

  lemma {:induction false} UsersOfEvent(e: Event, arg: TransferArg, guard: Guard, users: seq<string>)
    ensures AllOfEvents(UserRefreshes(e, arg, guard, users))
  {
    if users != [] {
      UsersOfEvent(e, arg, guard, users[1..]);
    }
  }

  lemma {:induction false} EventsOfEvents(num: nat, txid: string, index: nat, events: seq<Event>)
    ensures AllOfEvents(EventsScript(num, txid, index, events))
  {
    if events != [] {
      EventsOfEvents(num, txid, index, events[1..]);
      var e := events[0];
      if e.arg.Some? {
        var arg := e.arg.value;
        UsersOfEvent(e, arg, TransferGuard(ReceiptKey(txid, index), HistoryOf(num, e, arg)), UsersToUpdate(arg));
      }
    }
  }

  predicate AllBecause(s: seq<Instr>, cause: Cause) {
    forall k :: 0 <= k < |s| ==>
      || s[k] == Halt(Always)
      || (s[k].Refresh? && s[k].cell.AddressCell? && s[k].guard == Always && s[k].cause == cause)
  }

  lemma {:induction false} DepositsBecause(deposits: seq<Json>)
    ensures AllBecause(DepositsScript(deposits), ByDeposit)
  {
    if deposits != [] {
      DepositsBecause(deposits[1..]);
    }
  }

  lemma {:induction false} DepositsAsk(deposits: seq<Json>)
    ensures forall i :: i in DepositsScript(deposits) ==>
              i.Refresh? && i.cell.AddressCell? && i.guard == Always && i.cause == ByDeposit
  {
    if deposits != [] {
      DepositsAsk(deposits[1..]);
    }
  }

  /** What the five plugins can contribute. */
  lemma PartsOf(num: nat, block: Block, txid: string, index: nat, name: string, f: Fields, r: Option<Receipt>, i: Instr)
    ensures AllBecause(TransferScript(name, f), ByTransferOp) && AllBecause(AssetScript(f), ByAssetOp)
    ensures i in AccountScript(name, f) ==> i.SaveAccount?
    ensures i in RegisterScript(num, txid, name, f, r) ==> i.SaveToken? || i == Halt(Always)
    ensures i in InvokeScript(num, block, txid, index, r) ==>
              i.Halt? || OfEvent(i) || (i.Refresh? && i.cell.AddressCell? && i.guard == Always && i.cause == ByDeposit)
  {
    if r.Some? {
      EventsOfEvents(num, txid, index, r.value.events);
      DepositsBecause(r.value.deposits);
    }
  }

  /** The rows of the operation itself. */
  function OwnRows(num: nat, t: nat, tx: Tx, o: nat, opType: nat, name: string, f: Fields): seq<Instr> {
    [MakeTable(TableName(name), f.Keys), InsertOp(OpKey(TableName(name), tx.txid, o), f),
     SaveOp(OperationId(num, tx.txid, o), BaseRow(num, t, tx.txid, opType, name, f))]
  }

  lemma InParts(num: nat, block: Block, t: nat, tx: Tx, o: nat, form: OpForm, i: Instr)
    requires form.Good?
    ensures var f, r := Augment(num, tx.txid, o, form.fields), ReceiptFor(tx, o);
            i in OpScript(num, block, t, tx, o, form)
            <==> || i in OwnRows(num, t, tx, o, form.opType, form.opName, f)
                 || i in TransferScript(form.opName, f) || i in AccountScript(form.opName, f) || i in AssetScript(f)
                 || i in RegisterScript(num, tx.txid, form.opName, f, r)
                 || i in InvokeScript(num, block, tx.txid, o, r)
  {
  }

  /** The table, the row in it and the row among all operations. */
  lemma OwnRowsExactly(num: nat, block: Block, t: nat, tx: Tx, o: nat, form: OpForm)
    requires form.Good?
    ensures |OpScript(num, block, t, tx, o, form)| >= 3
    ensures OpScript(num, block, t, tx, o, form)[..3]
            == OwnRows(num, t, tx, o, form.opType, form.opName, Augment(num, tx.txid, o, form.fields))
    ensures forall i :: i in OpScript(num, block, t, tx, o, form) && (i.MakeTable? || i.InsertOp? || i.SaveOp?) ==>
              i in OwnRows(num, t, tx, o, form.opType, form.opName, Augment(num, tx.txid, o, form.fields))
  {
    var f, r := Augment(num, tx.txid, o, form.fields), ReceiptFor(tx, o);
    forall i | i in OpScript(num, block, t, tx, o, form) && (i.MakeTable? || i.InsertOp? || i.SaveOp?)
      ensures i in OwnRows(num, t, tx, o, form.opType, form.opName, f)
    {
      InParts(num, block, t, tx, o, form, i);
      PartsOf(num, block, tx.txid, o, form.opName, f, r, i);
    }
  }

  /** Accounts and tokens. */
  lemma NamesExactly(num: nat, block: Block, t: nat, tx: Tx, o: nat, form: OpForm, i: Instr)
    requires form.Good? && (i.SaveAccount? || i.SaveToken?)
    ensures var f := Augment(num, tx.txid, o, form.fields);
            i in OpScript(num, block, t, tx, o, form)
            <==> if i.SaveAccount? then i in AccountScript(form.opName, f)
                 else i in RegisterScript(num, tx.txid, form.opName, f, ReceiptFor(tx, o))
  {
    InParts(num, block, t, tx, o, form, i);
    PartsOf(num, block, tx.txid, o, form.opName, Augment(num, tx.txid, o, form.fields), ReceiptFor(tx, o), i);
  }

  lemma InInvoke(num: nat, block: Block, txid: string, index: nat, r: Option<Receipt>, addr: string, asset: string)
    ensures Refresh(AddressCell(addr, asset), Always, ByDeposit) in InvokeScript(num, block, txid, index, r)
            <==> r.Some? && r.value.succeeded && block.timestampParses && Deposits(r.value.deposits, addr, asset)
  {
    if r.Some? && r.value.succeeded && block.timestampParses {
      EventsOfEvents(num, txid, index, r.value.events);
      DepositsExactly(r.value.deposits, addr, asset);
    }
  }

  /** A balance is asked for because of a transfer, of an operation's properties or of a deposit. */
  lemma CauseExactly(num: nat, block: Block, t: nat, tx: Tx, o: nat, form: OpForm, i: Instr)
    requires form.Good? && i.Refresh? && i.cell.AddressCell?
    ensures var f := Augment(num, tx.txid, o, form.fields);
            i in OpScript(num, block, t, tx, o, form)
            <==> i.guard == Always
                 && match i.cause
                    case ByTransferOp => i in TransferScript(form.opName, f)
                    case ByAssetOp => i in AssetScript(f)
                    case ByDeposit => i in InvokeScript(num, block, tx.txid, o, ReceiptFor(tx, o))
                    case _ => false
  {
    InParts(num, block, t, tx, o, form, i);
    PartsOf(num, block, tx.txid, o, form.opName, Augment(num, tx.txid, o, form.fields), ReceiptFor(tx, o), i);
  }

  lemma HeardExactly(num: nat, block: Block, tx: Tx, o: nat, addr: string, asset: string)
    ensures Refresh(AddressCell(addr, asset), Always, ByDeposit)
            in InvokeScript(num, block, tx.txid, o, ReceiptFor(tx, o))
            <==> exists r :: IsHeard(block, tx, o, r) && Deposits(r.deposits, addr, asset)
  {
    InInvoke(num, block, tx.txid, o, ReceiptFor(tx, o), addr, asset);
    forall r ensures ReceiptFor(tx, o) == Some(r) <==> IsReceiptOf(tx, o, r) {
      ReceiptExactly(tx, o, r);
    }
  }

  lemma ThreeCauses(num: nat, block: Block, t: nat, tx: Tx, o: nat, form: OpForm, c: Cell)
    requires form.Good? && c.AddressCell?
    ensures var f := Augment(num, tx.txid, o, form.fields);
            (exists i :: i in OpScript(num, block, t, tx, o, form) && i.Refresh? && i.cell == c)
            <==> || Refresh(c, Always, ByTransferOp) in TransferScript(form.opName, f)
                 || Refresh(c, Always, ByAssetOp) in AssetScript(f)
                 || Refresh(c, Always, ByDeposit) in InvokeScript(num, block, tx.txid, o, ReceiptFor(tx, o))
  {
    CauseExactly(num, block, t, tx, o, form, Refresh(c, Always, ByTransferOp));
    CauseExactly(num, block, t, tx, o, form, Refresh(c, Always, ByAssetOp));
    CauseExactly(num, block, t, tx, o, form, Refresh(c, Always, ByDeposit));
    if i :| i in OpScript(num, block, t, tx, o, form) && i.Refresh? && i.cell == c {
      CauseExactly(num, block, t, tx, o, form, i);
    }
  }

  /** The script of an operation asks for exactly the balances that the operation moves. */
  lemma MovesExactly(num: nat, block: Block, t: nat, tx: Tx, o: nat, form: OpForm, addr: string, asset: string)
    requires form.Good?
    ensures Moves(block, tx, o, form.opName, form.fields, addr, asset)
            <==> exists i :: i in OpScript(num, block, t, tx, o, form)
                             && i.Refresh? && i.cell == AddressCell(addr, asset)
  {
    var f := Augment(num, tx.txid, o, form.fields);
    AugmentElsewhere(num, tx.txid, o, form.fields);
    ThreeCauses(num, block, t, tx, o, form, AddressCell(addr, asset));
    TransferBalance(form.opName, form.fields, f, addr, asset);
    AssetExactly(form.fields, f, addr, asset);
    HeardExactly(num, block, tx, o, addr, asset);
  }

  lemma TransferBalance(name: string, fields: Fields, f: Fields, addr: string, asset: string)
    requires SameElsewhere(f, fields)
    ensures Refresh(AddressCell(addr, asset), Always, ByTransferOp) in TransferScript(name, f)
            <==> exists x :: Transfers(name, fields, addr, x, asset) || Transfers(name, fields, x, addr, asset)
  {
    var from, to, has := TransferRead(name, fields, f);
    TransferExactly(name, fields, f, from, to, has);
    forall x, y, a | Transfers(name, fields, x, y, a) ensures x == from && y == to && a == has {
      TransferExactly(name, fields, f, x, y, a);
    }
  }

  /** What is not good contributes nothing, or the table and a dead stop. */
  lemma OthersExactly(num: nat, block: Block, t: nat, tx: Tx, o: nat, form: OpForm, i: Instr)
    requires !form.Good? && i in OpScript(num, block, t, tx, o, form)
    ensures i == Halt(Always)
            || (form.Unquoted? && i == MakeTable(TableName(form.opName), Augment(num, tx.txid, o, form.fields).Keys))
  {
  }

  lemma OpKinds(num: nat, block: Block, t: nat, tx: Tx, o: nat, form: OpForm, i: Instr)
    requires i in OpScript(num, block, t, tx, o, form)
    ensures !i.SaveTx? && !i.SaveReceipt?
  {
    if form.Good? {
      InParts(num, block, t, tx, o, form, i);
      PartsOf(num, block, tx.txid, o, form.opName, Augment(num, tx.txid, o, form.fields), ReceiptFor(tx, o), i);
    } else {
      OthersExactly(num, block, t, tx, o, form, i);
    }
  }
}
