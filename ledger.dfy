/**
 * The balance ledger the handlers move lamports on: every system account
 * (a signer's wallet or an artist's tips vault) has a `u64` balance, an
 * account that is absent has balance zero, and the system program's transfer
 * is one atomic debit-and-credit.
 */
module Ledger {
  import opened Records

  /** A signer's wallet, or the tips vault derived from an artist's profile. */
  datatype Address = Wallet(key: Pubkey) | TipsVault(artist: Pubkey)

  type Lamports = map<Address, u64>

  function Balance(m: Lamports, a: Address): (b: u64)
    ensures a !in m ==> b == 0
    ensures a in m ==> b == m[a]
  {
    if a in m then m[a] else 0
  }

  /** Chooses one address of a non-empty ledger; `Total` always peels off this one. */
  ghost function Pick(m: Lamports): (a: Address)
    requires m != map[]
    ensures a in m
  {
    var a :| a in m; a
  }

  /** The lamports held by all accounts together. */
  ghost function Total(m: Lamports): nat
    decreases |m|
  {
    if m == map[] then 0
    else
      var a := Pick(m);
      assert |m - {a}| < |m| by { assert (m - {a}).Keys < m.Keys; }
      m[a] + Total(m - {a})
  }

  /** `Total` does not depend on which address it peels off first. */
  lemma {:induction false} TotalRemove(m: Lamports, a: Address)
    requires a in m
    ensures Total(m) == m[a] + Total(m - {a})
    decreases |m|
  {
    var b := Pick(m);
    if b != a {
      var rest := m - {a} - {b};
      assert (m - {b}) - {a} == rest;
      assert (m - {a}) - {b} == rest;
      assert |m - {b}| < |m| by { assert (m - {b}).Keys < m.Keys; }
      TotalRemove(m - {b}, a);
      assert m - {a} != map[] by { assert b in m - {a}; }
      assert |m - {a}| < |m| by { assert (m - {a}).Keys < m.Keys; }
      TotalRemove(m - {a}, b);
    }
  }

  /** Setting one balance changes the total by exactly the difference. */
  lemma TotalSet(m: Lamports, a: Address, v: u64)
    ensures Total(m[a := v]) + Balance(m, a) == Total(m) + v
  {
    var m' := m[a := v];
    TotalRemove(m', a);
    assert m' - {a} == m - {a};
    if a in m {
      TotalRemove(m, a);
    } else {
      assert m - {a} == m;
    }
  }

  /**
   * The system program's transfer: the payer is debited first, then the payee
   * is credited. It fails, changing nothing, when the payer holds less than
   * `amount` or the payee's balance would leave `u64`.
   */
  function Transfer(m: Lamports, from: Address, to: Address, amount: u64): (r: Result<Lamports, HostError>)
    ensures Balance(m, from) < amount ==> r == Err(InsufficientLamports)
    ensures Balance(m, from) >= amount && Balance(m[from := Balance(m, from) - amount], to) + amount > U64_MAX ==>
      r == Err(LamportOverflow)
    ensures r.Ok? <==> Balance(m, from) >= amount && Balance(m[from := Balance(m, from) - amount], to) + amount <= U64_MAX
    ensures r.Err? ==> r.error == InsufficientLamports || r.error == LamportOverflow
    ensures r.Ok? && from != to ==>
      && Balance(r.value, from) == Balance(m, from) - amount
      && Balance(r.value, to) == Balance(m, to) + amount
    ensures r.Ok? && from == to ==> Balance(r.value, from) == Balance(m, from)
    ensures r.Ok? ==> forall a :: a != from && a != to ==> Balance(r.value, a) == Balance(m, a)
  {
    if Balance(m, from) < amount then Err(InsufficientLamports)
    else
      var debited := m[from := Balance(m, from) - amount];
      if Balance(debited, to) + amount > U64_MAX then Err(LamportOverflow)
      else Ok(debited[to := Balance(debited, to) + amount])
  }

  /** A transfer neither creates nor destroys lamports. */
  lemma TransferConserves(m: Lamports, from: Address, to: Address, amount: u64)
    requires Transfer(m, from, to, amount).Ok?
    ensures Total(Transfer(m, from, to, amount).value) == Total(m)
  {
    var debited := m[from := Balance(m, from) - amount];
    TotalSet(m, from, Balance(m, from) - amount);
    TotalSet(debited, to, Balance(debited, to) + amount);
  }
}
