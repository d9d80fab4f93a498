/** Selecting the coins that pay for a stack: the wallet is listed page by page, and coins are
    taken in the order of the listing until they cover the price. */
module Coins {
  import opened Base

  datatype Coin = Coin(id: int, balance: int)

  /** One answer of the coin API. */
  datatype Answer = Failed | Page(coins: seq<Coin>, hasNextPage: bool)

  function Total(coins: seq<Coin>): int {
    SumSeq(coins, (c: Coin) => c.balance)
  }

  /** Every answer but the last announces the next one. */
  predicate Paged(answers: seq<Answer>) {
    && answers != []
    && (forall i :: 0 <= i < |answers| - 1 ==> answers[i].Page? && answers[i].hasNextPage)
    && (answers[|answers| - 1].Page? ==> !answers[|answers| - 1].hasNextPage)
  }

  /** The coins listed before the listing ends or fails. */
  function Listing(answers: seq<Answer>): seq<Coin> {
    if answers == [] then []
    else
      var last := answers[|answers| - 1];
      Listing(answers[..|answers| - 1]) + (if last.Page? then last.coins else [])
  }

  /** The first `n` coins, at least one, are enough, and no fewer are. */
  predicate Shortest(coins: seq<Coin>, value: int, n: nat) {
    && 1 <= n <= |coins| && Total(coins[..n]) >= value
    && forall k :: 1 <= k < n ==> Total(coins[..k]) < value
  }

  /** The shortest sufficient prefix of the listing, if there is one. */
  ghost predicate Selected(answers: seq<Answer>, value: int, r: Option<seq<Coin>>) {
    && (r.Some? <==> exists n :: Shortest(Listing(answers), value, n))
    && (r.Some? ==> Shortest(Listing(answers), value, |r.value|) && r.value == Listing(answers)[..|r.value|])
  }

  /** No prefix is enough. */
  predicate Insufficient(coins: seq<Coin>, value: int) {
    forall k :: 1 <= k <= |coins| ==> Total(coins[..k]) < value
  }

  /** `get_coins_of_value`. */
  method GetCoinsOfValue(answers: seq<Answer>, value: int) returns (r: Option<seq<Coin>>)
    requires Paged(answers)
    ensures Selected(answers, value, r)
  {
    var total, selected, page := 0, [], 0;
    hide Listing, Total, Insufficient, Shortest;
    NothingSelected(value);
    assert answers[..0] == [];
    while true
      invariant page < |answers|
      invariant selected == Listing(answers[..page])
      invariant total == Total(selected) && Insufficient(selected, value)
      decreases |answers| - page
    {
      ListingSplit(answers, page);
      if answers[page].Failed? {
        NotEnough(selected, value);
        return None;
      }
      var coins := answers[page].coins;
      for i := 0 to |coins|
        invariant selected == Listing(answers[..page]) + coins[..i]
        invariant total == Total(selected) && Insufficient(selected, value)
      {
        SelectOne(selected, coins[i], value);
        PrefixOfListing(Listing(answers[..page]), coins, i, Listing(answers), value);
        total := total + coins[i].balance;
        selected := selected + [coins[i]];
        if total >= value {
          return Some(selected);
        }
      }
      assert coins[..|coins|] == coins;
      if !answers[page].hasNextPage {
        NotEnough(selected, value);
        break;
      }
      page := page + 1;
    }
    return None;
  }

  lemma NothingSelected(value: int)
    ensures Total([]) == 0 && Insufficient([], value) && Listing([]) == []
  {
  }

  lemma SelectOne(selected: seq<Coin>, coin: Coin, value: int)
    requires Insufficient(selected, value)
    ensures Total(selected + [coin]) == Total(selected) + coin.balance
    ensures Total(selected + [coin]) < value ==> Insufficient(selected + [coin], value)
    ensures Total(selected + [coin]) >= value ==> Shortest(selected + [coin], value, |selected| + 1)
  {
    SumSeqPush(selected, coin, (c: Coin) => c.balance);
    var next := selected + [coin];
    assert next[..|next|] == next;
    assert forall k :: 1 <= k <= |selected| ==> next[..k] == selected[..k];
  }

  /** What is the shortest selection of a prefix of the listing is that of the listing. */
  lemma PrefixOfListing(before: seq<Coin>, coins: seq<Coin>, i: nat, all: seq<Coin>, value: int)
    requires i < |coins| && before + coins <= all
    ensures var next := before + coins[..i] + [coins[i]];
            && next == before + coins[..i + 1] && next == all[..|next|]
            && (Shortest(next, value, |next|) ==> Shortest(all, value, |next|) && exists n :: Shortest(all, value, n))
  {
    var next := before + coins[..i] + [coins[i]];
    assert next == (before + coins)[..|next|];
    assert next == all[..|next|] && next[..|next|] == next;
    assert forall k :: 1 <= k < |next| ==> next[..k] == all[..k];
  }

  lemma NotEnough(coins: seq<Coin>, value: int)
    requires Insufficient(coins, value)
    ensures !exists n :: Shortest(coins, value, n)
  {
  }

  /** The listing continues with each page, and ends with a failure or with the last page. */
  lemma ListingSplit(answers: seq<Answer>, page: nat)
    requires Paged(answers) && page < |answers|
    ensures answers[page].Failed? ==> Listing(answers) == Listing(answers[..page])
    ensures answers[page].Page? ==>
              var next := Listing(answers[..page]) + answers[page].coins;
              && next == Listing(answers[..page + 1]) && next <= Listing(answers)
              && (!answers[page].hasNextPage ==> next == Listing(answers))
              && (answers[page].hasNextPage ==> page + 1 < |answers|)
  {
    ListingGrows(answers, page + 1);
    ListingStep(answers, page);
    if page == |answers| - 1 {
      assert answers[..page + 1] == answers;
    }
    hide Listing;
  }

  lemma ListingStep(answers: seq<Answer>, page: nat)
    requires page < |answers|
    ensures Listing(answers[..page + 1]) == Listing(answers[..page]) + (if answers[page].Page? then answers[page].coins else [])
  {
    assert answers[..page + 1][..page] == answers[..page];
  }

  lemma {:induction false} ListingGrows(answers: seq<Answer>, n: nat)
    requires n <= |answers|
    ensures Listing(answers[..n]) <= Listing(answers)
    decreases |answers|
  {
    if n == |answers| {
      assert answers[..n] == answers;
    } else {
      var init := answers[..|answers| - 1];
      assert init[..n] == answers[..n];
      ListingGrows(init, n);
    }
  }

  lemma ShortestIsUnique(coins: seq<Coin>, value: int, m: nat, n: nat)
    requires Shortest(coins, value, m) && Shortest(coins, value, n)
    ensures m == n
  {
  }

  /** The selection depends on the coins in the order of the listing, not on the pages. */
  lemma PagingDoesNotMatter(p: seq<Answer>, q: seq<Answer>, value: int, r: Option<seq<Coin>>, s: Option<seq<Coin>>)
    requires Listing(p) == Listing(q)
    requires Selected(p, value, r) && Selected(q, value, s)
    ensures r == s
  {
    if r.Some? && s.Some? {
      ShortestIsUnique(Listing(p), value, |r.value|, |s.value|);
    }
  }

  /** When no balance is negative, the selection succeeds exactly when the wallet has a coin
      and its total covers the value. */
  lemma SucceedsIffWalletCovers(coins: seq<Coin>, value: int)
    requires forall c :: c in coins ==> c.balance >= 0
    ensures (exists n :: Shortest(coins, value, n)) <==> coins != [] && Total(coins) >= value
  {
    if n :| Shortest(coins, value, n) {
      TotalGrows(coins, n);
    }
    if coins != [] && Total(coins) >= value {
      assert coins[..|coins|] == coins;
      FirstEnough(coins, value, |coins|);
    }
  }

  lemma TotalGrows(coins: seq<Coin>, n: nat)
    requires n <= |coins| && forall c :: c in coins ==> c.balance >= 0
    ensures Total(coins[..n]) <= Total(coins)
  {
    assert coins == coins[..n] + coins[n..];
    SumSeqConcat(coins[..n], coins[n..], (c: Coin) => c.balance);
    SumSeqNonNegative(coins[n..], (c: Coin) => c.balance);
  }

  lemma {:induction false} FirstEnough(coins: seq<Coin>, value: int, n: nat)
    requires 1 <= n <= |coins| && Total(coins[..n]) >= value
    ensures exists k :: Shortest(coins, value, k)
  {
    if k :| 1 <= k < n && Total(coins[..k]) >= value {
      FirstEnough(coins, value, k);
    } else {
      assert Shortest(coins, value, n);
    }
  }

  /** `remove(0)` and `MergeCoins`: the first selected coin receives the others, and covers the
      price. */
  method MergeIntoPrimary(selected: seq<Coin>) returns (primary: Coin, rest: seq<Coin>)
    requires selected != []
    ensures primary.id == selected[0].id && primary.balance == Total(selected) && rest == selected[1..]
  {
    primary, rest := selected[0], selected[1..];
    SumSeqHead(selected, (c: Coin) => c.balance);
    assert Total(rest[..0]) == 0;
    for i := 0 to |rest|
      invariant primary.id == selected[0].id && primary.balance == selected[0].balance + Total(rest[..i])
    {
      assert rest[..i + 1] == rest[..i] + [rest[i]];
      SumSeqPush(rest[..i], rest[i], (c: Coin) => c.balance);
      primary := primary.(balance := primary.balance + rest[i].balance);
    }
    assert rest[..|rest|] == rest;
  }
}
