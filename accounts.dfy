/** Ad-account resolution and fan-out (sdk/sdk.go:507-630): every
    `(date, request)` pair becomes one item for an explicit account, one item
    per configured account, or one fallback item without an account. */
module AdAccounts {
  import opened Wrappers
  import opened JsonValues
  import opened Models
  import opened Scheduling

  // ---- account identifiers ----

  /** `normalizeAdAccountID` (sdk/sdk.go:507-515): `account_id` wins over `id`. */
  function NormalizeAdAccountID(a: AdAccount): (r: string)
    ensures a.accountId != "" ==> r == a.accountId
    ensures a.accountId == "" ==> r == a.id
    ensures r == "" <==> a.accountId == "" && a.id == ""
  {
    if a.accountId != "" then a.accountId
    else if a.id != "" then a.id
    else ""
  }

  /** The synonym keys of an explicit account id, in the order they are tried;
      `id` is deliberately not one of them (sdk/sdk.go:519-524). */
  const AdAccountKeys: seq<string> := [
    "adaccount", "adAccount", "ad_account",
    "adaccount_id", "adAccountId", "ad_account_id",
    "account_id", "accountId"]

  /** The value under `key` when it is present, not nil, a string and non-empty. */
  function LooseString(m: map<string, Json>, key: string): Option<string> {
    if key in m && m[key].JString? && m[key].s != "" then Some(m[key].s) else None
  }

  /** The first of `keys` under which `m` holds a non-empty string. */
  function FirstStringValue(m: map<string, Json>, keys: seq<string>): (r: Option<string>)
    ensures r.None? <==> forall i :: 0 <= i < |keys| ==> LooseString(m, keys[i]).None?
    ensures r.Some? ==> exists i :: (0 <= i < |keys| && LooseString(m, keys[i]) == r
      && forall j :: 0 <= j < i ==> LooseString(m, keys[j]).None?)
  {
    if keys == [] then None
    else if LooseString(m, keys[0]).Some? then LooseString(m, keys[0])
    else
      var rest := FirstStringValue(m, keys[1..]);
      assert forall i :: 1 <= i < |keys| ==> keys[i] == keys[1..][i - 1];
      if rest.Some? then
        var i :| 0 <= i < |keys[1..]| && LooseString(m, keys[1..][i]) == rest
          && forall j :: 0 <= j < i ==> LooseString(m, keys[1..][j]).None?;
        assert LooseString(m, keys[i + 1]) == rest;
        assert forall j :: 1 <= j < i + 1 ==> LooseString(m, keys[j]).None? by {
          forall j | 1 <= j < i + 1 ensures LooseString(m, keys[j]).None? {
            assert keys[j] == keys[1..][j - 1];
          }
        }
        rest
      else rest
  }

  /** `extractAdAccountFromLooseMap` (sdk/sdk.go:518-533). */
  function ExtractAdAccountFromLooseMap(m: map<string, Json>): (r: Option<string>)
    ensures r.Some? ==> r.value != "" && exists k :: k in AdAccountKeys && k in m && m[k] == JString(r.value)
    ensures r.None? <==> forall k :: k in AdAccountKeys ==> LooseString(m, k).None?
  {
    var r := FirstStringValue(m, AdAccountKeys);
    if r.Some? then
      var i :| 0 <= i < |AdAccountKeys| && LooseString(m, AdAccountKeys[i]) == r;
      assert AdAccountKeys[i] in m && m[AdAccountKeys[i]] == JString(r.value);
      r
    else
      r
  }

  /** Keys outside the synonym list, `id` among them, never affect the lookup. */
  lemma LooseMapIgnoresOtherKeys(m: map<string, Json>, key: string, v: Json)
    requires key !in AdAccountKeys
    ensures ExtractAdAccountFromLooseMap(m[key := v]) == ExtractAdAccountFromLooseMap(m)
  {
    LooseMapIgnoresOtherKeysIn(m, key, v, AdAccountKeys);
  }

  lemma {:induction false} LooseMapIgnoresOtherKeysIn(m: map<string, Json>, key: string, v: Json, keys: seq<string>)
    requires key !in keys
    ensures FirstStringValue(m[key := v], keys) == FirstStringValue(m, keys)
  {
    if keys != [] {
      assert LooseString(m[key := v], keys[0]) == LooseString(m, keys[0]);
      LooseMapIgnoresOtherKeysIn(m, key, v, keys[1..]);
    }
  }

  /** `id` is never read as an explicit account. */
  lemma IdIsNotAnAccountKey(m: map<string, Json>, v: Json)
    ensures ExtractAdAccountFromLooseMap(m["id" := v]) == ExtractAdAccountFromLooseMap(m)
  {
    LooseMapIgnoresOtherKeys(m, "id", v);
  }

  /** Keys are tried in list order: a non-empty string under an earlier synonym wins. */
  lemma LooseMapPriority(m: map<string, Json>, i: int)
    requires 0 <= i < |AdAccountKeys| && LooseString(m, AdAccountKeys[i]).Some?
    requires forall j :: 0 <= j < i ==> LooseString(m, AdAccountKeys[j]).None?
    ensures ExtractAdAccountFromLooseMap(m) == LooseString(m, AdAccountKeys[i])
  {
    var r := FirstStringValue(m, AdAccountKeys);
    var i' :| 0 <= i' < |AdAccountKeys| && LooseString(m, AdAccountKeys[i']) == r
      && forall j :: 0 <= j < i' ==> LooseString(m, AdAccountKeys[j]).None?;
    assert i' == i;
  }

  // ---- the explicit account of a request ----

  /** `isZeroConnectorsAccountRequest` (sdk/sdk.go:627-630): the descriptor
      encodes to `{}`. */
  function IsZeroConnectorsAccountRequest(d: ConnectorsAccountRequest): bool {
    DescriptorAsObject(d) == map[]
  }

  /** The descriptor always encodes its non-`omitempty` fields, so it is never
      "zero", not even the zero descriptor. */
  lemma DescriptorNeverZero(d: ConnectorsAccountRequest)
    ensures !IsZeroConnectorsAccountRequest(d)
  {
    DescriptorObjectKeys(d);
    assert "description" in DescriptorAsObject(d);
  }

  /** None of the descriptor's encoded keys is an account synonym, so the
      descriptor never yields an explicit account. */
  lemma DescriptorNeverSuppliesAccount(d: ConnectorsAccountRequest)
    ensures ExtractAdAccountFromLooseMap(DescriptorAsObject(d)) == None
  {
    DescriptorObjectKeys(d);
    NoSynonymKey(DescriptorAsObject(d));
  }

  lemma NoSynonymKey(m: map<string, Json>)
    requires m.Keys <= DescriptorKeys
    ensures ExtractAdAccountFromLooseMap(m) == None
  {
    SynonymsAreNotDescriptorKeys();
    forall k | k in AdAccountKeys ensures LooseString(m, k).None? {
      assert k !in m;
    }
  }

  lemma SynonymsAreNotDescriptorKeys()
    ensures forall i :: 0 <= i < |AdAccountKeys| ==> AdAccountKeys[i] !in DescriptorKeys
  {
    forall i | 0 <= i < |AdAccountKeys| ensures AdAccountKeys[i] !in DescriptorKeys {
      var k := AdAccountKeys[i];
      assert |k| != 11 ==> k !in {"description", "isDimension"};
      assert k[0] != 'i' && k[0] != 'n' && k[0] != 's' && k[0] != 'p' && k[0] != 'b' && k[0] != 'g' && k[0] != 'd';
    }
  }

  /** `extractExplicitAdAccountID` (sdk/sdk.go:535-555): the free-form payload
      first, when it is an object, then the re-encoded descriptor. */
  function ExtractExplicitAdAccountID(req: Request): (r: Option<string>)
    ensures r.Some? ==> r.value != ""
  {
    var fromPayload := if req.payload.JObject? then ExtractAdAccountFromLooseMap(req.payload.fields) else None;
    if fromPayload.Some? then fromPayload
    else if !IsZeroConnectorsAccountRequest(req.descriptor) then ExtractAdAccountFromLooseMap(DescriptorAsObject(req.descriptor))
    else None
  }

  /** Only the free-form payload can supply an explicit account. */
  lemma OnlyPayloadSuppliesAccount(req: Request)
    ensures ExtractExplicitAdAccountID(req) ==
      if req.payload.JObject? then ExtractAdAccountFromLooseMap(req.payload.fields) else None
  {
    DescriptorNeverSuppliesAccount(req.descriptor);
  }

  // ---- the configured accounts ----

  /** An account with a non-empty normalized id (sdk/sdk.go:570-573). */
  datatype AccountCarry = AccountCarry(id: string, obj: AdAccount)

  /** The configured accounts with a non-empty normalized id, in input order,
      duplicates kept. */
  ghost function Carry(accounts: seq<AdAccount>): seq<AccountCarry> {
    if accounts == [] then []
    else
      var last := accounts[|accounts| - 1];
      var id := NormalizeAdAccountID(last);
      Carry(accounts[..|accounts| - 1]) + (if id != "" then [AccountCarry(id, last)] else [])
  }

  /** Every carried account is a configured account under its normalized,
      non-empty id. */
  lemma {:induction false} CarryItems(accounts: seq<AdAccount>)
    ensures |Carry(accounts)| <= |accounts|
    ensures forall i :: 0 <= i < |Carry(accounts)| ==>
      && Carry(accounts)[i].obj in accounts
      && Carry(accounts)[i].id == NormalizeAdAccountID(Carry(accounts)[i].obj) != ""
  {
    if accounts != [] {
      CarryItems(accounts[..|accounts| - 1]);
    }
  }

  /** Accounts are not de-duplicated: an account with a non-empty id is carried
      once more each time it is listed, whatever came before it. */
  lemma NoDeduplication(accounts: seq<AdAccount>, a: AdAccount)
    requires NormalizeAdAccountID(a) != ""
    ensures Carry(accounts + [a]) == Carry(accounts) + [AccountCarry(NormalizeAdAccountID(a), a)]
  {
    assert (accounts + [a])[..|accounts|] == accounts;
  }

  /** An account without an id is never carried. */
  lemma AnonymousAccountDropped(accounts: seq<AdAccount>, a: AdAccount)
    requires NormalizeAdAccountID(a) == ""
    ensures Carry(accounts + [a]) == Carry(accounts)
  {
    assert (accounts + [a])[..|accounts|] == accounts;
  }

  /** The first carried account whose id is `id` (sdk/sdk.go:587-593). */
  function FindAccount(carry: seq<AccountCarry>, id: string): (r: Option<AdAccount>)
    ensures r.None? <==> forall i :: 0 <= i < |carry| ==> carry[i].id != id
    ensures r.Some? ==> exists i :: (0 <= i < |carry| && carry[i].id == id && carry[i].obj == r.value
      && forall j :: 0 <= j < i ==> carry[j].id != id)
  {
    if carry == [] then None
    else if carry[0].id == id then Some(carry[0].obj)
    else
      var rest := FindAccount(carry[1..], id);
      assert forall i :: 1 <= i < |carry| ==> carry[i] == carry[1..][i - 1];
      if rest.Some? then
        var i :| 0 <= i < |carry[1..]| && carry[1..][i].id == id && carry[1..][i].obj == rest.value
          && forall j :: 0 <= j < i ==> carry[1..][j].id != id;
        assert carry[i + 1].id == id && carry[i + 1].obj == rest.value;
        rest
      else rest
  }

  /** The first match in a concatenation is the first match in the first
      part, else the first match in the second. */
  lemma {:induction false} FindAppend(c: seq<AccountCarry>, e: seq<AccountCarry>, id: string)
    ensures FindAccount(c + e, id) == if FindAccount(c, id).Some? then FindAccount(c, id) else FindAccount(e, id)
  {
    if c == [] {
      assert c + e == e;
    } else {
      assert (c + e)[0] == c[0];
      assert (c + e)[1..] == c[1..] + e;
      FindAppend(c[1..], e, id);
    }
  }

  /** Searching the carried accounts for a non-empty id finds nothing exactly
      when no configured account has that normalized id (the `nil` of
      sdk/sdk.go:586-593). */
  lemma {:induction false} CarryComplete(accounts: seq<AdAccount>, id: string)
    requires id != ""
    ensures FindAccount(Carry(accounts), id).None? <==> forall a :: a in accounts ==> NormalizeAdAccountID(a) != id
  {
    if accounts != [] {
      var n := |accounts| - 1;
      var init, last := accounts[..n], accounts[n];
      assert accounts == init + [last];
      var lid := NormalizeAdAccountID(last);
      var tail := if lid != "" then [AccountCarry(lid, last)] else [];
      assert Carry(accounts) == Carry(init) + tail;
      FindAppend(Carry(init), tail, id);
      CarryComplete(init, id);
      assert FindAccount(tail, id).None? <==> lid != id;
    }
  }

  /** The account found for a non-empty id is the first configured account
      whose normalized id it is. */
  lemma {:induction false} CarryFindsFirst(accounts: seq<AdAccount>, id: string, k: int)
    requires id != "" && 0 <= k < |accounts| && NormalizeAdAccountID(accounts[k]) == id
    requires forall j :: 0 <= j < k ==> NormalizeAdAccountID(accounts[j]) != id
    ensures FindAccount(Carry(accounts), id) == Some(accounts[k])
  {
    var n := |accounts| - 1;
    var init, last := accounts[..n], accounts[n];
    var lid := NormalizeAdAccountID(last);
    var tail := if lid != "" then [AccountCarry(lid, last)] else [];
    assert Carry(accounts) == Carry(init) + tail;
    FindAppend(Carry(init), tail, id);
    if k == n {
      forall a | a in init ensures NormalizeAdAccountID(a) != id {
        var j :| 0 <= j < n && init[j] == a;
        assert accounts[j] == a;
      }
      CarryComplete(init, id);
    } else {
      assert init[k] == accounts[k];
      CarryFindsFirst(init, id, k);
    }
  }

  /** An account found for an explicit id is a configured account whose
      normalized id is that id. */
  lemma FoundAccountMatches(accounts: seq<AdAccount>, id: string)
    requires FindAccount(Carry(accounts), id).Some?
    ensures var a := FindAccount(Carry(accounts), id).value;
      a in accounts && NormalizeAdAccountID(a) == id
  {
    CarryItems(accounts);
  }

  // ---- the fan-out ----

  /** The explicit account id of each pair's request, in pair order. */
  function ExplicitIds(pairs: seq<RequestByDate>): (r: seq<Option<string>>)
    ensures |r| == |pairs|
    ensures forall i :: 0 <= i < |pairs| ==> r[i] == ExtractExplicitAdAccountID(pairs[i].request)
  {
    seq(|pairs|, i requires 0 <= i < |pairs| => ExtractExplicitAdAccountID(pairs[i].request))
  }

  /** The items one pair becomes, given its explicit account id (sdk/sdk.go:584-621). */
  function FanOne(p: RequestByDate, explicitId: Option<string>, carry: seq<AccountCarry>)
    : (r: seq<RequestByDateAndAdAccount>)
    ensures 1 <= |r|
    ensures carry == [] ==> |r| == 1
    ensures carry != [] ==> |r| <= |carry|
  {
    match explicitId
    case Some(id) => [RequestByDateAndAdAccount(p.date, p.request, id, FindAccount(carry, id))]
    case None =>
      if |carry| > 0 then PerAccount(p, carry)
      else [RequestByDateAndAdAccount(p.date, p.request, "", None)]
  }

  /** A pair served by one carried account. */
  function Served(p: RequestByDate, c: AccountCarry): RequestByDateAndAdAccount {
    RequestByDateAndAdAccount(p.date, p.request, c.id, Some(c.obj))
  }

  /** One item per carried account, in carry order (sdk/sdk.go:604-612). */
  function PerAccount(p: RequestByDate, carry: seq<AccountCarry>): (r: seq<RequestByDateAndAdAccount>)
    ensures |r| == |carry|
    ensures forall j :: 0 <= j < |carry| ==> r[j] == Served(p, carry[j])
  {
    if carry == [] then []
    else
      var rest := PerAccount(p, carry[1..]);
      assert forall j :: 1 <= j < |carry| ==> carry[j] == carry[1..][j - 1];
      [Served(p, carry[0])] + rest
  }

  /** The concatenation of a sequence of blocks, in order. */
  function Flatten<T>(blocks: seq<seq<T>>): seq<T> {
    if blocks == [] then []
    else Flatten(blocks[..|blocks| - 1]) + blocks[|blocks| - 1]
  }

  /** The items of each pair, one block per pair; `ids[i]` is the explicit
      account id of `pairs[i]`. */
  function Blocks(pairs: seq<RequestByDate>, ids: seq<Option<string>>, carry: seq<AccountCarry>)
    : (r: seq<seq<RequestByDateAndAdAccount>>)
    requires |ids| == |pairs|
    ensures |r| == |pairs|
    ensures forall i :: 0 <= i < |pairs| ==> r[i] == FanOne(pairs[i], ids[i], carry)
  {
    seq(|pairs|, i requires 0 <= i < |pairs| => FanOne(pairs[i], ids[i], carry))
  }

  /** Every pair's items, in pair order. */
  ghost function FanOut(pairs: seq<RequestByDate>, ids: seq<Option<string>>, carry: seq<AccountCarry>)
    : seq<RequestByDateAndAdAccount>
    requires |ids| == |pairs|
  {
    Flatten(Blocks(pairs, ids, carry))
  }

  /** `GetRequestsByDateAndAdAccounts` as a definition: the pairs of
      `GetRequestsByDate`, then the decoded accounts, then the fan-out.
      `accounts` is the outcome of decoding `adaccounts`. */
  ghost function RequestsByDateAndAdAccounts(config: ConfigFile, state: map<string, string>,
                                             accounts: Result<seq<AdAccount>, SdkError>)
    : Result<seq<RequestByDateAndAdAccount>, SdkError>
  {
    var pairs :- RequestsByDate(config, state);
    var accs :- accounts;
    Success(FanOut(pairs, ExplicitIds(pairs), Carry(accs)))
  }

  // ---- properties of concatenation ----

  lemma {:induction false} FlattenAppend<T>(x: seq<seq<T>>, y: seq<seq<T>>)
    ensures Flatten(x + y) == Flatten(x) + Flatten(y)
    decreases |y|
  {
    if y == [] {
      assert x + y == x;
    } else {
      var n := |y| - 1;
      assert (x + y)[..|x + y| - 1] == x + y[..n];
      assert Flatten(x + y) == Flatten(x + y[..n]) + y[n];
      FlattenAppend(x, y[..n]);
      assert Flatten(y) == Flatten(y[..n]) + y[n];
    }
  }

  /** An element is in the concatenation exactly when it is in one of the blocks. */
  lemma {:induction false} FlattenMember<T>(blocks: seq<seq<T>>, v: T)
    ensures v in Flatten(blocks) <==> exists i :: 0 <= i < |blocks| && v in blocks[i]
  {
    if blocks != [] {
      var n := |blocks| - 1;
      FlattenMember(blocks[..n], v);
      if v in Flatten(blocks[..n]) {
        var i :| 0 <= i < n && v in blocks[..n][i];
        assert v in blocks[i];
      }
      if exists i :: 0 <= i < |blocks| && v in blocks[i] {
        var i :| 0 <= i < |blocks| && v in blocks[i];
        if i < n { assert v in blocks[..n][i]; }
      }
    }
  }

  /** Lengths add up: with every block between `lo` and `hi` long, the
      concatenation is between |blocks| * lo and |blocks| * hi long. */
  lemma {:induction false} FlattenLength<T>(blocks: seq<seq<T>>, lo: nat, hi: nat)
    requires forall i :: 0 <= i < |blocks| ==> lo <= |blocks[i]| <= hi
    ensures |blocks| * lo <= |Flatten(blocks)| <= |blocks| * hi
  {
    if blocks != [] {
      var n := |blocks| - 1;
      assert forall i :: 0 <= i < n ==> blocks[..n][i] == blocks[i];
      FlattenLength(blocks[..n], lo, hi);
      MulSucc(n, lo);
      MulSucc(n, hi);
    }
  }

  // ---- properties of the fan-out ----

  /** The fan-out of a concatenation is the concatenation of the fan-outs. */
  lemma FanOutAppend(a: seq<RequestByDate>, ia: seq<Option<string>>,
                     b: seq<RequestByDate>, ib: seq<Option<string>>, carry: seq<AccountCarry>)
    requires |ia| == |a| && |ib| == |b|
    ensures FanOut(a + b, ia + ib, carry) == FanOut(a, ia, carry) + FanOut(b, ib, carry)
  {
    assert Blocks(a + b, ia + ib, carry) == Blocks(a, ia, carry) + Blocks(b, ib, carry);
    FlattenAppend(Blocks(a, ia, carry), Blocks(b, ib, carry));
  }

  /** Each pair keeps its date and request; an explicit account wins, then
      every carried account, then a single item without an account. */
  lemma FanOneCases(p: RequestByDate, explicitId: Option<string>, carry: seq<AccountCarry>)
    ensures forall x :: x in FanOne(p, explicitId, carry) ==> x.date == p.date && x.request == p.request
    ensures explicitId.Some? ==>
      FanOne(p, explicitId, carry) ==
        [RequestByDateAndAdAccount(p.date, p.request, explicitId.value, FindAccount(carry, explicitId.value))]
    ensures explicitId.None? && carry != [] ==>
      && |FanOne(p, explicitId, carry)| == |carry|
      && forall j :: 0 <= j < |carry| ==> FanOne(p, explicitId, carry)[j] == Served(p, carry[j])
    ensures explicitId.None? && carry == [] ==>
      FanOne(p, explicitId, carry) == [RequestByDateAndAdAccount(p.date, p.request, "", None)]
  {
  }

  /** Every pair yields at least one item and at most one per carried account. */
  lemma FanOutCount(pairs: seq<RequestByDate>, ids: seq<Option<string>>, carry: seq<AccountCarry>)
    requires |ids| == |pairs|
    ensures |pairs| <= |FanOut(pairs, ids, carry)|
    ensures carry == [] ==> |FanOut(pairs, ids, carry)| == |pairs|
    ensures carry != [] ==> |FanOut(pairs, ids, carry)| <= |pairs| * |carry|
  {
    var blocks := Blocks(pairs, ids, carry);
    if carry == [] {
      FlattenLength(blocks, 1, 1);
    } else {
      FlattenLength(blocks, 1, |carry|);
    }
  }

  /** No pair has an explicit account (a hypothesis of the cross-product lemmas). */
  predicate NoExplicitIds(ids: seq<Option<string>>) {
    forall i :: 0 <= i < |ids| ==> ids[i].None?
  }

  /** A request payload without any synonym key gives no explicit account, so
      when no payload has one the cross-product lemmas apply. */
  lemma NoExplicitIdsFromPayloads(pairs: seq<RequestByDate>)
    requires forall i :: 0 <= i < |pairs| ==>
      pairs[i].request.payload.JObject? ==> ExtractAdAccountFromLooseMap(pairs[i].request.payload.fields).None?
    ensures NoExplicitIds(ExplicitIds(pairs))
  {
    forall i | 0 <= i < |pairs| ensures ExplicitIds(pairs)[i].None? {
      OnlyPayloadSuppliesAccount(pairs[i].request);
    }
  }

  /** With no explicit account anywhere and accounts configured, there are
      |pairs| * |carry| items. */
  lemma FanOutCrossCount(pairs: seq<RequestByDate>, ids: seq<Option<string>>, carry: seq<AccountCarry>)
    requires |ids| == |pairs| && carry != [] && NoExplicitIds(ids)
    ensures |FanOut(pairs, ids, carry)| == |pairs| * |carry|
  {
    FlattenLength(Blocks(pairs, ids, carry), |carry|, |carry|);
  }

  /** With no explicit account anywhere, every pair is served by every carried account. */
  lemma FanOutCrossCovers(pairs: seq<RequestByDate>, ids: seq<Option<string>>, carry: seq<AccountCarry>,
                          i: nat, j: nat)
    requires |ids| == |pairs| && NoExplicitIds(ids) && i < |pairs| && j < |carry|
    ensures Served(pairs[i], carry[j]) in FanOut(pairs, ids, carry)
  {
    var blocks := Blocks(pairs, ids, carry);
    assert blocks[i][j] == Served(pairs[i], carry[j]);
    FlattenMember(blocks, blocks[i][j]);
  }

  /** With no explicit account anywhere and accounts configured, every item is
      some pair served by some carried account. */
  lemma FanOutCrossOnly(pairs: seq<RequestByDate>, ids: seq<Option<string>>, carry: seq<AccountCarry>,
                        x: RequestByDateAndAdAccount)
    requires |ids| == |pairs| && carry != [] && NoExplicitIds(ids) && x in FanOut(pairs, ids, carry)
    ensures exists i, j :: 0 <= i < |pairs| && 0 <= j < |carry| && x == Served(pairs[i], carry[j])
  {
    var blocks := Blocks(pairs, ids, carry);
    FlattenMember(blocks, x);
    var i :| 0 <= i < |blocks| && x in blocks[i];
    var j :| 0 <= j < |blocks[i]| && blocks[i][j] == x;
    assert x == Served(pairs[i], carry[j]);
  }

  /** Both directions together: with no explicit account anywhere and accounts
      configured, the items are exactly the pairs crossed with the carried accounts. */
  lemma FanOutCross(pairs: seq<RequestByDate>, ids: seq<Option<string>>, carry: seq<AccountCarry>,
                    x: RequestByDateAndAdAccount)
    requires |ids| == |pairs| && carry != [] && NoExplicitIds(ids)
    ensures x in FanOut(pairs, ids, carry) <==>
      exists i, j :: 0 <= i < |pairs| && 0 <= j < |carry| && x == Served(pairs[i], carry[j])
  {
    if x in FanOut(pairs, ids, carry) {
      FanOutCrossOnly(pairs, ids, carry, x);
    }
    if exists i, j :: 0 <= i < |pairs| && 0 <= j < |carry| && x == Served(pairs[i], carry[j]) {
      var i, j :| 0 <= i < |pairs| && 0 <= j < |carry| && x == Served(pairs[i], carry[j]);
      FanOutCrossCovers(pairs, ids, carry, i, j);
    }
  }

  /** An item carrying an explicit account id comes from a pair whose
      request named that account. */
  lemma FanOutExplicit(pairs: seq<RequestByDate>, ids: seq<Option<string>>, carry: seq<AccountCarry>,
                       i: nat)
    requires |ids| == |pairs| && i < |pairs| && ids[i].Some?
    ensures RequestByDateAndAdAccount(pairs[i].date, pairs[i].request, ids[i].value,
                                      FindAccount(carry, ids[i].value)) in FanOut(pairs, ids, carry)
  {
    var blocks := Blocks(pairs, ids, carry);
    FlattenMember(blocks, blocks[i][0]);
  }

  lemma MulSucc(n: nat, c: nat)
    ensures (n + 1) * c == n * c + c
  {
  }

  // ---- the method ----

  /** The carried accounts (sdk/sdk.go:574-579). */
  method CarryAccounts(accounts: seq<AdAccount>) returns (carry: seq<AccountCarry>)
    ensures carry == Carry(accounts)
  {
    carry := [];
    for i := 0 to |accounts|
      invariant carry == Carry(accounts[..i])
    {
      var a := accounts[i];
      assert accounts[..i + 1][..i] == accounts[..i];
      var id := NormalizeAdAccountID(a);
      if id != "" {
        carry := carry + [AccountCarry(id, a)];
      }
    }
    assert accounts[..|accounts|] == accounts;
  }

  /** The first carried account under `id` (sdk/sdk.go:586-593). */
  method FindCarried(carry: seq<AccountCarry>, id: string) returns (ptr: Option<AdAccount>)
    ensures ptr == FindAccount(carry, id)
  {
    ptr := None;
    var i := 0;
    while i < |carry|
      invariant 0 <= i <= |carry|
      invariant FindAccount(carry, id) == FindAccount(carry[i..], id)
    {
      assert carry[i..][1..] == carry[i + 1..];
      if carry[i].id == id {
        ptr := Some(carry[i].obj);
        return;
      }
      i := i + 1;
    }
  }

  /** Appends one item per carried account (sdk/sdk.go:604-612). */
  method AppendPerAccount(out: seq<RequestByDateAndAdAccount>, p: RequestByDate, carry: seq<AccountCarry>)
    returns (out': seq<RequestByDateAndAdAccount>)
    ensures out' == out + PerAccount(p, carry)
  {
    ghost var per := PerAccount(p, carry);
    out' := out;
    for k := 0 to |carry|
      invariant out' == out + per[..k]
    {
      assert per[..k + 1] == per[..k] + [per[k]];
      out' := out' + [RequestByDateAndAdAccount(p.date, p.request, carry[k].id, Some(carry[k].obj))];
    }
    assert per[..|carry|] == per;
  }

  /** `GetRequestsByDateAndAdAccounts` (sdk/sdk.go:558-625). */
  method GetRequestsByDateAndAdAccounts(config: ConfigFile, state: map<string, string>,
                                        adAccounts: Result<seq<AdAccount>, SdkError>)
    returns (r: Result<seq<RequestByDateAndAdAccount>, SdkError>)
    ensures r == RequestsByDateAndAdAccounts(config, state, adAccounts)
  {
    var pairsResult := GetRequestsByDate(config, state);
    if pairsResult.Failure? {
      return Failure(pairsResult.error);
    }
    if adAccounts.Failure? {
      return Failure(adAccounts.error);
    }
    var pairs := pairsResult.value;
    ghost var ids := ExplicitIds(pairs);
    var carry := CarryAccounts(adAccounts.value);
    ghost var blocks := Blocks(pairs, ids, carry);
    var out := [];
    for i := 0 to |pairs|
      invariant out == Flatten(blocks[..i])
    {
      var rbd := pairs[i];
      assert blocks[..i + 1][..i] == blocks[..i];
      var explicitId := ExtractExplicitAdAccountID(rbd.request);
      assert explicitId == ids[i];
      if explicitId.Some? {
        var ptr := FindCarried(carry, explicitId.value);
        out := out + [RequestByDateAndAdAccount(rbd.date, rbd.request, explicitId.value, ptr)];
      } else if |carry| > 0 {
        out := AppendPerAccount(out, rbd, carry);
      } else {
        out := out + [RequestByDateAndAdAccount(rbd.date, rbd.request, "", None)];
      }
    }
    assert blocks[..|pairs|] == blocks;
    return Success(out);
  }
}
