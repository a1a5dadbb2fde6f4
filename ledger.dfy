/**
 * The match ledger of blockchain.py: a hash-linked chain of game blocks,
 * a table of wager balances and a table of pending escrow contracts.
 *
 * The three JSON files are the fields of one `Ledger` object. The SHA-256
 * of a block's sorted-key JSON is the injected function `hashOf`; the
 * `uuid4().hex` and `int(time.time())` values are parameters of AddGame.
 */
module Ledger {

  import opened Wrappers
  import opened PyOps

  /** Every field of a block except `hash`: exactly what `_hash_block` digests. */
  datatype Header = Header(
    index: int,
    gameId: string,
    players: seq<string>,
    winner: string,
    bet: int,
    timestamp: int,
    prevHash: string)

  datatype Block = Block(header: Header, hash: string)

  /** A pending escrow: `{'players': [...], 'bet': n}`. */
  datatype Contract = Contract(players: seq<string>, bet: int)

  // ----- the hash chain

  /** The hash of the last block, or "" for an empty chain. */
  function TailHash(chain: seq<Block>): string {
    if chain == [] then "" else chain[|chain| - 1].hash
  }

  /** Block `b` may follow `chain`: it sits at the chain's length, links to its tail and stores its own hash. */
  predicate Links(chain: seq<Block>, b: Block, hashOf: Header -> string) {
    && b.header.index == |chain|
    && b.header.prevHash == TailHash(chain)
    && b.hash == hashOf(b.header)
  }

  /** Every block's index is its position, its prev_hash its predecessor's hash ("" first) and its hash its own. */
  predicate ValidChain(chain: seq<Block>, hashOf: Header -> string) {
    forall i :: 0 <= i < |chain| ==> Links(chain[..i], chain[i], hashOf)
  }

  /** A chain extended by one block is valid exactly when the old chain is valid and the block links to it. */
  lemma {:induction false} ValidChainAppend(chain: seq<Block>, b: Block, hashOf: Header -> string)
    ensures ValidChain(chain + [b], hashOf) <==> ValidChain(chain, hashOf) && Links(chain, b, hashOf)
  {
    var c := chain + [b];
    assert c[..|chain|] == chain;
    forall i | 0 <= i < |chain|
      ensures c[..i] == chain[..i] && c[i] == chain[i]
    {
    }
  }

  // ----- wager settlement

  /** The balances after the loop `for p in players: balances[p] = balances.get(p, 0) - bet`. */
  function Debit(balances: map<string, int>, players: seq<string>, bet: int): map<string, int>
  {
    if players == [] then balances
    else
      var d := Debit(balances, players[..|players| - 1], bet);
      var p := players[|players| - 1];
      d[p := GetOrZero(d, p) - bet]
  }

  /** The balances after `add_game`: unchanged for a zero bet, else debit every player and credit the winner `bet * len(players)`. */
  function Settle(balances: map<string, int>, players: seq<string>, winner: string, bet: int): map<string, int>
  {
    if bet == 0 then balances
    else
      var d := Debit(balances, players, bet);
      d[winner := GetOrZero(d, winner) + bet * |players|]
  }

  /** Each player is debited once per appearance in the list. */
  lemma {:induction false} DebitAt(balances: map<string, int>, players: seq<string>, bet: int, u: string)
    ensures GetOrZero(Debit(balances, players, bet), u) == GetOrZero(balances, u) - bet * Count(players, u)
  {
    if players != [] {
      var ps := players[..|players| - 1];
      DebitAt(balances, ps, bet, u);
      var c := Count(ps, u);
      if players[|players| - 1] == u {
        assert Count(players, u) == c + 1;
        assert bet * (c + 1) == bet * c + bet;
      } else {
        assert Count(players, u) == c;
      }
    }
  }

  /** Debiting touches no key except the players'. */
  lemma {:induction false} DebitKeys(balances: map<string, int>, players: seq<string>, bet: int)
    ensures Debit(balances, players, bet).Keys == balances.Keys + set p | p in players
  {
    if players != [] {
      var ps := players[..|players| - 1];
      DebitKeys(balances, ps, bet);
      assert players == ps + [players[|players| - 1]];
    }
  }

  /** The change of one user's balance: `bet * len(players)` if they won, minus `bet` per appearance among the players. */
  lemma SettleChange(balances: map<string, int>, players: seq<string>, winner: string, bet: int, u: string)
    ensures GetOrZero(Settle(balances, players, winner, bet), u) - GetOrZero(balances, u)
         == (if u == winner then bet * |players| else 0) - bet * Count(players, u)
  {
    DebitAt(balances, players, bet, u);
  }

  /** Sum over distinct users of the balance change from `before` to `after`. */
  function SumChange(users: seq<string>, before: map<string, int>, after: map<string, int>): int
  {
    if users == [] then 0
    else
      var u := users[|users| - 1];
      SumChange(users[..|users| - 1], before, after) + (GetOrZero(after, u) - GetOrZero(before, u))
  }

  /** Sum over users of how often each appears among the players. */
  function SumCount(users: seq<string>, players: seq<string>): int
  {
    if users == [] then 0
    else SumCount(users[..|users| - 1], players) + Count(players, users[|users| - 1])
  }

  lemma {:induction false} SumCountAppend(users: seq<string>, players: seq<string>, p: string)
    ensures SumCount(users, players + [p]) == SumCount(users, players) + Count(users, p)
  {
    if users != [] {
      var us := users[..|users| - 1];
      SumCountAppend(us, players, p);
      CountAppend(players, [p], users[|users| - 1]);
      assert [p][..0] == [];
    }
  }

  /** When the users are distinct and include every player, the counts add up to the number of players. */
  lemma {:induction false} SumCountAll(users: seq<string>, players: seq<string>)
    requires NoDup(users)
    requires forall p :: p in players ==> p in users
    ensures SumCount(users, players) == |players|
  {
    if players == [] {
      SumCountNone(users, players);
    } else {
      var ps := players[..|players| - 1];
      var p := players[|players| - 1];
      assert players == ps + [p];
      SumCountAll(users, ps);
      SumCountAppend(users, ps, p);
      NoDupCount(users, p);
    }
  }

  lemma {:induction false} SumCountNone(users: seq<string>, players: seq<string>)
    requires players == []
    ensures SumCount(users, players) == 0
  {
    if users != [] {
      SumCountNone(users[..|users| - 1], players);
    }
  }

  lemma {:induction false} SumChangeSettle(users: seq<string>, balances: map<string, int>, players: seq<string>, winner: string, bet: int)
    ensures SumChange(users, balances, Settle(balances, players, winner, bet))
         == bet * |players| * Count(users, winner) - bet * SumCount(users, players)
  {
    if users != [] {
      var us := users[..|users| - 1];
      var u := users[|users| - 1];
      SumChangeSettle(us, balances, players, winner, bet);
      SettleChange(balances, players, winner, bet, u);
      var k := bet * |players|;
      if u == winner {
        assert k * (Count(us, winner) + 1) == k * Count(us, winner) + k;
      }
      assert bet * (SumCount(us, players) + Count(players, u))
          == bet * SumCount(us, players) + bet * Count(players, u);
    }
  }

  /**
   * Wagers create no money: over any list of distinct users that includes
   * every player and the winner, the balance changes sum to zero.
   */
  lemma SettleSumsToZero(users: seq<string>, balances: map<string, int>, players: seq<string>, winner: string, bet: int)
    requires NoDup(users)
    requires winner in users
    requires forall p :: p in players ==> p in users
    ensures SumChange(users, balances, Settle(balances, players, winner, bet)) == 0
  {
    SumChangeSettle(users, balances, players, winner, bet);
    NoDupCount(users, winner);
    SumCountAll(users, players);
  }

  /** Users outside the game keep their balance, and keep it as a stored entry or as no entry. */
  lemma SettleOthersUnchanged(balances: map<string, int>, players: seq<string>, winner: string, bet: int, u: string)
    requires u != winner && u !in players
    ensures u in Settle(balances, players, winner, bet) <==> u in balances
    ensures u in balances ==> Settle(balances, players, winner, bet)[u] == balances[u]
  {
    DebitKeys(balances, players, bet);
    DebitAt(balances, players, bet, u);
    CountZero(players, u);
  }

  // ----- search

  /** A block matches when it satisfies every filter given. */
  predicate Matches(b: Block, gameId: Option<string>, userId: Option<string>) {
    && (gameId.Some? ==> b.header.gameId == gameId.value)
    && (userId.Some? ==> userId.value in b.header.players)
  }

  /** The reference definition of the search: the matching blocks, in chain order. */
  function Matching(chain: seq<Block>, gameId: Option<string>, userId: Option<string>): seq<Block>
  {
    if chain == [] then []
    else (if Matches(chain[0], gameId, userId) then [chain[0]] else []) + Matching(chain[1..], gameId, userId)
  }

  function ByGame(blocks: seq<Block>, gameId: string): seq<Block>
  {
    if blocks == [] then []
    else (if blocks[0].header.gameId == gameId then [blocks[0]] else []) + ByGame(blocks[1..], gameId)
  }

  function ByUser(blocks: seq<Block>, userId: string): seq<Block>
  {
    if blocks == [] then []
    else (if userId in blocks[0].header.players then [blocks[0]] else []) + ByUser(blocks[1..], userId)
  }

  /** `search`: the chain, filtered by game id if one is given, then by player if one is given. */
  function Search(chain: seq<Block>, gameId: Option<string>, userId: Option<string>): seq<Block>
  {
    var byGame := if gameId.Some? then ByGame(chain, gameId.value) else chain;
    if userId.Some? then ByUser(byGame, userId.value) else byGame
  }

  lemma {:induction false} ByGameMatching(blocks: seq<Block>, gameId: string, userId: Option<string>)
    ensures Matching(ByGame(blocks, gameId), None, userId) == Matching(blocks, Some(gameId), userId)
  {
    if blocks != [] {
      ByGameMatching(blocks[1..], gameId, userId);
      MatchingAppend(if blocks[0].header.gameId == gameId then [blocks[0]] else [], ByGame(blocks[1..], gameId), None, userId);
      assert [blocks[0]][1..] == [];
    }
  }

  lemma {:induction false} ByUserMatching(blocks: seq<Block>, userId: string)
    ensures ByUser(blocks, userId) == Matching(blocks, None, Some(userId))
  {
    if blocks != [] {
      ByUserMatching(blocks[1..], userId);
    }
  }

  lemma {:induction false} MatchingAll(blocks: seq<Block>)
    ensures Matching(blocks, None, None) == blocks
  {
    if blocks != [] {
      MatchingAll(blocks[1..]);
    }
  }

  /** The matching blocks of a concatenation are those of each part, in order. */
  lemma {:induction false} MatchingAppend(s: seq<Block>, t: seq<Block>, gameId: Option<string>, userId: Option<string>)
    ensures Matching(s + t, gameId, userId) == Matching(s, gameId, userId) + Matching(t, gameId, userId)
  {
    if s == [] {
      assert s + t == t;
    } else {
      assert (s + t)[1..] == s[1..] + t;
      MatchingAppend(s[1..], t, gameId, userId);
    }
  }

  /** A block is in the result exactly when it is in the chain and matches every filter. */
  lemma {:induction false} MatchingMembers(chain: seq<Block>, gameId: Option<string>, userId: Option<string>, b: Block)
    ensures b in Matching(chain, gameId, userId) <==> b in chain && Matches(b, gameId, userId)
  {
    if chain != [] {
      MatchingMembers(chain[1..], gameId, userId, b);
      assert chain == [chain[0]] + chain[1..];
    }
  }

  /** `search` is the conjunctive filter; with no filters it is the whole chain. */
  lemma SearchIsConjunctiveFilter(chain: seq<Block>, gameId: Option<string>, userId: Option<string>)
    ensures Search(chain, gameId, userId) == Matching(chain, gameId, userId)
    ensures gameId.None? && userId.None? ==> Search(chain, gameId, userId) == chain
  {
    var byGame := if gameId.Some? then ByGame(chain, gameId.value) else chain;
    if gameId.Some? {
      ByGameMatching(chain, gameId.value, userId);
      if userId.Some? {
        ByUserMatching(byGame, userId.value);
      } else {
        MatchingAll(byGame);
      }
    } else {
      if userId.Some? {
        ByUserMatching(chain, userId.value);
      } else {
        MatchingAll(chain);
      }
    }
  }

  // ----- the ledger state

  class Ledger {
    /** SHA-256 of the block's JSON with sorted keys, as a hex string. */
    const hashOf: Header -> string
    var chain: seq<Block>
    var balances: map<string, int>
    var contracts: map<string, Contract>

    /** The ledger over whatever the three files hold. */
    constructor (hashOf: Header -> string, chain: seq<Block>, balances: map<string, int>, contracts: map<string, Contract>)
      ensures this.hashOf == hashOf && this.chain == chain && this.balances == balances && this.contracts == contracts
    {
      this.hashOf := hashOf;
      this.chain := chain;
      this.balances := balances;
      this.contracts := contracts;
    }

    /**
     * `add_game`: append one block at index `len(chain)` linked to the tail
     * and settle the wager. `freshId` is the uuid used when no game id is
     * given; `now` is the clock reading.
     */
    method AddGame(players: seq<string>, winner: string, bet: int, gameId: Option<string>, freshId: string, now: int)
      returns (block: Block)
      modifies this`chain, this`balances
      ensures block.header.index == |old(chain)|
      ensures block.header.gameId == if gameId.Some? then gameId.value else freshId
      ensures block.header.players == players && block.header.winner == winner && block.header.bet == bet
      ensures block.header.timestamp == now
      ensures old(chain) == [] ==> block.header.prevHash == ""
      ensures old(chain) != [] ==> block.header.prevHash == old(chain)[|old(chain)| - 1].hash
      ensures block.hash == hashOf(block.header)
      ensures chain == old(chain) + [block]
      ensures ValidChain(old(chain), hashOf) ==> ValidChain(chain, hashOf)
      ensures balances == Settle(old(balances), players, winner, bet)
      ensures bet == 0 ==> balances == old(balances)
    {
      var prevHash := if |chain| > 0 then chain[|chain| - 1].hash else "";
      var id := if gameId.Some? then gameId.value else freshId;
      var header := Header(|chain|, id, players, winner, bet, now, prevHash);
      block := Block(header, hashOf(header));
      ValidChainAppend(chain, block, hashOf);
      chain := chain + [block];

      if bet != 0 {
        var i := 0;
        while i < |players|
          invariant 0 <= i <= |players|
          invariant balances == Debit(old(balances), players[..i], bet)
          invariant chain == old(chain) + [block]
        {
          assert players[..i + 1][..i] == players[..i];
          var p := players[i];
          balances := balances[p := GetOrZero(balances, p) - bet];
          i := i + 1;
        }
        assert players[..|players|] == players;
        balances := balances[winner := GetOrZero(balances, winner) + bet * |players|];
      }
    }

    /** `search` over the stored chain. */
    function SearchChain(gameId: Option<string>, userId: Option<string>): (r: seq<Block>)
      reads this
      ensures forall b :: b in r <==> b in chain && Matches(b, gameId, userId)
      ensures gameId.None? && userId.None? ==> r == chain
    {
      SearchIsConjunctiveFilter(chain, gameId, userId);
      forall b ensures b in Matching(chain, gameId, userId) <==> b in chain && Matches(b, gameId, userId) {
        MatchingMembers(chain, gameId, userId, b);
      }
      Search(chain, gameId, userId)
    }

    /** `add_contract`: store (or overwrite) the escrow; the chain is untouched. */
    method AddContract(requestId: string, players: seq<string>, bet: int)
      modifies this`contracts
      ensures contracts == old(contracts)[requestId := Contract(players, bet)]
    {
      contracts := contracts[requestId := Contract(players, bet)];
    }

    /**
     * `fulfill_contract`: pop the escrow and record it as a game whose id is
     * the request id; an unknown id changes nothing and answers None.
     */
    method FulfillContract(requestId: string, winner: string, now: int) returns (r: Option<Block>)
      modifies this`chain, this`balances, this`contracts
      ensures requestId !in old(contracts) ==>
        r == None && chain == old(chain) && balances == old(balances) && contracts == old(contracts)
      ensures requestId in old(contracts) ==>
        var c := old(contracts)[requestId];
        && r.Some?
        && contracts == old(contracts) - {requestId}
        && chain == old(chain) + [r.value]
        && r.value.header == Header(|old(chain)|, requestId, c.players, winner, c.bet, now, TailHash(old(chain)))
        && r.value.hash == hashOf(r.value.header)
        && balances == Settle(old(balances), c.players, winner, c.bet)
      ensures ValidChain(old(chain), hashOf) ==> ValidChain(chain, hashOf)
    {
      if requestId !in contracts {
        return None;
      }
      var c := contracts[requestId];
      contracts := contracts - {requestId};
      // The uuid argument is unused: the request id is the game id.
      var block := AddGame(c.players, winner, c.bet, Some(requestId), requestId, now);
      r := Some(block);
    }
  }

  /** tests/test_blockchain.py: a 5-coin wager between alice and bob won by alice, then a settled contract. */
  method LedgerScenario(hashOf: Header -> string)
  {
    var ledger := new Ledger(hashOf, [], map[], map[]);
    var block := ledger.AddGame(["alice", "bob"], "alice", 5, Some("g1"), "unused", 1000);
    assert block.header.index == 0;
    SettleChange(map[], ["alice", "bob"], "alice", 5, "alice");
    SettleChange(map[], ["alice", "bob"], "alice", 5, "bob");
    assert Count(["alice", "bob"], "alice") == 1 by {
      assert ["alice", "bob"][..1] == ["alice"];
      assert ["alice"][..0] == [];
    }
    assert Count(["alice", "bob"], "bob") == 1 by {
      assert ["alice", "bob"][..1] == ["alice"];
      assert ["alice"][..0] == [];
    }
    assert GetOrZero(ledger.balances, "alice") == 5;
    assert GetOrZero(ledger.balances, "bob") == -5;
    var found := ledger.SearchChain(Some("g1"), None);
    assert block in found;

    var escrow := new Ledger(hashOf, [], map[], map[]);
    escrow.AddContract("req1", ["a", "b"], 2);
    var settled := escrow.FulfillContract("req1", "b", 1001);
    assert settled.Some? && settled.value.header.gameId == "req1";
    assert |escrow.chain| == 1 && escrow.chain[0].header.winner == "b";
    var again := escrow.FulfillContract("req1", "b", 1002);
    assert again == None;
  }
}
