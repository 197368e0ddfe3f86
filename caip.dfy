/**
 * Chain ids (CAIP-2, `namespace:reference`), account ids (CAIP-10,
 * `namespace:reference:address`) and the two list operations the approval
 * flow uses to build the account list of a new session: removing duplicate
 * addresses and pairing every chain with every address.
 */
module Caip {

  type ChainId = string
  type Address = string
  type AccountId = string

  predicate NoDup<T(==)>(s: seq<T>) {
    forall i, j :: 0 <= i < j < |s| ==> s[i] != s[j]
  }

  /** The CAIP-10 account id of `address` on `chain`. */
  function AccountOf(chain: ChainId, address: Address): AccountId {
    chain + ":" + address
  }

  /**
   * The shape CAIP-2 demands of a chain id: a namespace and a reference,
   * both non-empty, separated by the only ':' of the string.
   */
  predicate Caip2Shaped(chain: ChainId) {
    exists k | 0 < k < |chain| - 1 :: chain[k] == ':' && ':' !in chain[..k] && ':' !in chain[k + 1..]
  }

  lemma BareReferenceIsNotCaip2Shaped(chain: ChainId)
    requires ':' !in chain
    ensures !Caip2Shaped(chain)
  {
    assert forall k | 0 <= k < |chain| :: chain[k] in chain;
  }

  /** An account id splits back into its chain and its address when the address has no ':'. */
  lemma AccountOfInjective(c1: ChainId, a1: Address, c2: ChainId, a2: Address)
    requires ':' !in a1 && ':' !in a2
    ensures AccountOf(c1, a1) == AccountOf(c2, a2) ==> c1 == c2 && a1 == a2
  {
    var s1, s2 := AccountOf(c1, a1), AccountOf(c2, a2);
    if s1 == s2 {
      LastColon(c1, a1);
      LastColon(c2, a2);
      assert |c1| == |c2|;
      assert c1 == s1[..|c1|] && c2 == s2[..|c2|];
      assert a1 == s1[|c1| + 1..] && a2 == s2[|c2| + 1..];
    }
  }

  /** In `chain:address` with a ':'-free address, the separator is the last ':'. */
  lemma LastColon(c: ChainId, a: Address)
    requires ':' !in a
    ensures var s := AccountOf(c, a);
      s[|c|] == ':' && forall k | |c| < k < |s| :: s[k] != ':'
  {
    var s := AccountOf(c, a);
    forall k | |c| < k < |s|
      ensures s[k] != ':'
    {
      assert s[k] == a[k - |c| - 1] && a[k - |c| - 1] in a;
    }
  }


  // ---------------------------------------------------------------------------
  // Removing duplicate addresses, first occurrence kept (Kotlin's `distinct()`)
  // ---------------------------------------------------------------------------

  /** `s` with every element after its first occurrence dropped. */
  function Distinct(s: seq<Address>): (r: seq<Address>)
    ensures NoDup(r)
    ensures forall x :: x in r <==> x in s
    ensures |r| <= |s|
  {
    if s == [] then []
    else
      var init := Distinct(s[..|s| - 1]);
      var last := s[|s| - 1];
      assert s == s[..|s| - 1] + [last];
      if last in s[..|s| - 1] then init else init + [last]
  }

  /**
   * The elements of `Distinct(s)` appear in the order in which they are first
   * seen in `s`: wherever a later element occurs in `s`, an earlier one has
   * already occurred.
   */
  lemma {:induction false} DistinctKeepsFirstSeenOrder(s: seq<Address>, i: nat, j: nat, q: nat)
    requires i < j < |Distinct(s)|
    requires q < |s| && s[q] == Distinct(s)[j]
    ensures Distinct(s)[i] in s[..q]
  {
    var init, last := s[..|s| - 1], s[|s| - 1];
    var r, ri := Distinct(s), Distinct(init);
    DistinctStep(s);
    if j < |ri| {
      assert r[i] == ri[i] && r[j] == ri[j];
      if q < |s| - 1 {
        assert init[q] == s[q] && init[..q] == s[..q];
        DistinctKeepsFirstSeenOrder(init, i, j, q);
      } else {
        assert ri[j] in ri;
        var q' :| 0 <= q' < |init| && init[q'] == ri[j];
        DistinctKeepsFirstSeenOrder(init, i, j, q');
        assert init[..q'] == s[..q'] && s[..q'] <= s[..q];
      }
    } else {
      assert r == ri + [last] && r[i] == ri[i] && r[j] == last;
      assert ri[i] in ri;
      assert s[..q] == init;
    }
  }

  /** `Distinct` of a non-empty list, in terms of the list without its last element. */
  lemma DistinctStep(s: seq<Address>)
    requires s != []
    ensures var init, last := s[..|s| - 1], s[|s| - 1];
      Distinct(s) == (if last in init then Distinct(init) else Distinct(init) + [last])
  {
  }

  /** The account ids of one chain, in address order. */
  function Row(chain: ChainId, addresses: seq<Address>): seq<AccountId> {
    seq(|addresses|, j requires 0 <= j < |addresses| => AccountOf(chain, addresses[j]))
  }

  /** Every chain paired with every address, chain-major. */
  function CrossProduct(chains: seq<ChainId>, addresses: seq<Address>): seq<AccountId> {
    if chains == [] then []
    else CrossProduct(chains[..|chains| - 1], addresses) + Row(chains[|chains| - 1], addresses)
  }

  lemma {:induction false} CrossProductLength(chains: seq<ChainId>, addresses: seq<Address>)
    ensures |CrossProduct(chains, addresses)| == |chains| * |addresses|
  {
    if chains != [] {
      CrossProductLength(chains[..|chains| - 1], addresses);
      assert |chains| * |addresses| == (|chains| - 1) * |addresses| + |addresses|;
    }
  }

  /**
   * Position `i * |addresses| + j` of the cross product holds chain `i` paired
   * with address `j`: the list is `[c:a for c in chains for a in addresses]`.
   */
  lemma {:induction false} CrossProductAt(chains: seq<ChainId>, addresses: seq<Address>, i: nat, j: nat)
    requires i < |chains| && j < |addresses|
    ensures |CrossProduct(chains, addresses)| == |chains| * |addresses|
    ensures i * |addresses| + j < |chains| * |addresses|
    ensures CrossProduct(chains, addresses)[i * |addresses| + j] == AccountOf(chains[i], addresses[j])
  {
    var n, m := |chains|, |addresses|;
    var init := chains[..n - 1];
    CrossProductLength(chains, addresses);
    CrossProductLength(init, addresses);
    assert n * m == (n - 1) * m + m;
    if i < n - 1 {
      CrossProductAt(init, addresses, i, j);
      assert init[i] == chains[i];
    } else {
      assert i * m == (n - 1) * m;
    }
  }

  /** An id is in the cross product exactly when it pairs one of the chains with one of the addresses. */
  lemma {:induction false} CrossProductMembership(chains: seq<ChainId>, addresses: seq<Address>, x: AccountId)
    ensures x in CrossProduct(chains, addresses) <==>
            exists c, a :: c in chains && a in addresses && x == AccountOf(c, a)
  {
    if chains != [] {
      var init, last := chains[..|chains| - 1], chains[|chains| - 1];
      CrossProductMembership(init, addresses, x);
      assert chains == init + [last];
      if x in Row(last, addresses) {
        var j :| 0 <= j < |addresses| && Row(last, addresses)[j] == x;
        assert addresses[j] in addresses;
      }
      if exists c, a :: c in chains && a in addresses && x == AccountOf(c, a) {
        var c, a :| c in chains && a in addresses && x == AccountOf(c, a);
        if c !in init {
          assert c == last;
          var j :| 0 <= j < |addresses| && addresses[j] == a;
          assert Row(last, addresses)[j] == x;
        }
      }
    }
  }

  lemma NoDupAppend<T>(a: seq<T>, b: seq<T>)
    requires NoDup(a) && NoDup(b)
    requires forall x :: x in a ==> x !in b
    ensures NoDup(a + b)
  {
    forall i, j | 0 <= i < j < |a + b|
      ensures (a + b)[i] != (a + b)[j]
    {
      if i < |a| && |a| <= j {
        assert (a + b)[i] in a && (a + b)[j] == b[j - |a|];
      }
    }
  }

  /**
   * With distinct chains and distinct, ':'-free addresses, no account id
   * appears twice.
   */
  lemma {:induction false} CrossProductNoDup(chains: seq<ChainId>, addresses: seq<Address>)
    requires NoDup(chains) && NoDup(addresses)
    requires forall a :: a in addresses ==> ':' !in a
    ensures NoDup(CrossProduct(chains, addresses))
  {
    if chains != [] {
      var init, last := chains[..|chains| - 1], chains[|chains| - 1];
      var row := Row(last, addresses);
      CrossProductNoDup(init, addresses);
      forall i, j | 0 <= i < j < |row|
        ensures row[i] != row[j]
      {
        assert addresses[i] in addresses && addresses[j] in addresses;
        AccountOfInjective(last, addresses[i], last, addresses[j]);
      }
      forall x | x in CrossProduct(init, addresses)
        ensures x !in row
      {
        CrossProductMembership(init, addresses, x);
        var c, a :| c in init && a in addresses && x == AccountOf(c, a);
        assert c != last by {
          assert forall k | 0 <= k < |init| :: init[k] == chains[k] && chains[k] != last;
        }
        forall j | 0 <= j < |addresses|
          ensures row[j] != x
        {
          assert addresses[j] in addresses;
          AccountOfInjective(c, a, last, addresses[j]);
        }
      }
      NoDupAppend(CrossProduct(init, addresses), row);
    }
  }

  /**
   * Builds the account list the way the approval does: for each chain in
   * turn, one account per address.
   */
  method BuildAccounts(chains: seq<ChainId>, addresses: seq<Address>) returns (accounts: seq<AccountId>)
    ensures accounts == CrossProduct(chains, addresses)
  {
    accounts := [];
    for i := 0 to |chains|
      invariant accounts == CrossProduct(chains[..i], addresses)
    {
      ghost var done := accounts;
      for j := 0 to |addresses|
        invariant |accounts| == |done| + j
        invariant accounts[..|done|] == done
        invariant forall k :: 0 <= k < j ==> accounts[|done| + k] == AccountOf(chains[i], addresses[k])
      {
        accounts := accounts + [AccountOf(chains[i], addresses[j])];
      }
      assert accounts == done + Row(chains[i], addresses);
      assert chains[..i + 1][..i] == chains[..i];
    }
    assert chains[..|chains|] == chains;
  }

  /** The account list of the worked example: two chains, two addresses. */
  lemma TwoChainsTwoAddresses()
    ensures CrossProduct(["eip155:1", "eip155:137"], ["0xAAA", "0xBBB"])
         == ["eip155:1:0xAAA", "eip155:1:0xBBB", "eip155:137:0xAAA", "eip155:137:0xBBB"]
  {
    var chains: seq<ChainId> := ["eip155:1", "eip155:137"];
    var addresses: seq<Address> := ["0xAAA", "0xBBB"];
    assert chains[..1] == ["eip155:1"] && chains[..1][..0] == [];
    assert AccountOf("eip155:1", "0xAAA") == "eip155:1:0xAAA" && AccountOf("eip155:1", "0xBBB") == "eip155:1:0xBBB";
    assert AccountOf("eip155:137", "0xAAA") == "eip155:137:0xAAA" && AccountOf("eip155:137", "0xBBB") == "eip155:137:0xBBB";
    assert Row("eip155:1", addresses) == ["eip155:1:0xAAA", "eip155:1:0xBBB"];
    assert Row("eip155:137", addresses) == ["eip155:137:0xAAA", "eip155:137:0xBBB"];
  }
}
