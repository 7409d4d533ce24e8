/** Peer ids: the server names its clients c1, c2, ... in the order of their arrival. */
module PeerNames {
  import opened Text

  /** The id of the n-th accepted client. */
  function PeerName(n: nat): string {
    "c" + Decimal(n)
  }

  lemma PeerNameInjective(m: nat, n: nat)
    requires PeerName(m) == PeerName(n)
    ensures m == n
  {
    assert PeerName(m)[1..] == Decimal(m) && PeerName(n)[1..] == Decimal(n);
    DecimalInjective(m, n);
  }
}
