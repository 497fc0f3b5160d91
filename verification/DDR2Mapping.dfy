/**
 The page-interleaved address mapping: consecutive pages go to consecutive ranks, then to
 consecutive banks, then to consecutive rows.
 */
module DDR2Mapping {
  import opened DDR2State
  import opened Products

  /** The units as the controller shifts by them: a rank unit is a page of this channel, a bank unit a page of each rank,
      a row unit a page of each bank of each rank. */
  predicate Paged(cfg: Config) {
    cfg.Valid() && cfg.bankUnit == cfg.rankUnit * cfg.numRanks && cfg.rowUnit == cfg.bankUnit * cfg.numBanks
  }

  /** The page that holds this place: a row is numRanks * numBanks pages, a bank numRanks of them. */
  function PageAt(cfg: Config, l: Location): nat {
    (l.row * cfg.numBanks + l.bank) * cfg.numRanks + l.rank
  }

  lemma DivideOnce(q: nat, b: nat, m: nat)
    requires m < b
    ensures (q * b + m) / b == q && (q * b + m) % b == m
  {
    var n := q * b + m;
    assert n == (n / b) * b + n % b;
    var d := n / b - q;
    assert d * b == (n / b) * b - q * b == m - n % b;
    if d >= 1 { MulMonotone(1, d, b); }
    if d <= -1 { MulMonotone(d, -1, b); }
  }

  lemma Regroup(r: int, b: int, k: int, a: int, m: int)
    ensures (r * b + k) * a + m == r * (a * b) + (k * a + m)
  {
  }

  lemma RestInProduct(k: nat, a: nat, b: nat, m: nat)
    requires k < b && m < a
    ensures k * a + m < a * b
  {
    MulMonotone(k + 1, b, a);
    assert (k + 1) * a == k * a + a;
  }

  /** A number in two digits over a remainder: dividing by the product of both units gives the higher digit. */
  lemma DivideTwice(r: nat, b: nat, k: nat, a: nat, m: nat)
    requires k < b && m < a
    ensures ((r * b + k) * a + m) / (a * b) == r
  {
    Regroup(r, b, k, a, m);
    RestInProduct(k, a, b, m);
    DivideOnce(r, a * b, k * a + m);
  }

  // ---------- what a page is enqueued as ----------

  /** Every offset of the page of a place decodes to that place. */
  lemma PageDecodes(cfg: Config, l: Location, offset: nat)
    requires Paged(cfg) && l.rank < cfg.numRanks && l.bank < cfg.numBanks && offset < cfg.rankUnit
    ensures Decode(cfg, PageAt(cfg, l) * cfg.rankUnit + offset) == l
  {
    var u, ranks, banks := cfg.rankUnit, cfg.numRanks, cfg.numBanks;
    var inRank, page := l.row * banks + l.bank, PageAt(cfg, l);
    var n := page * u + offset;
    DivideOnce(page, u, offset);
    DivideOnce(inRank, ranks, l.rank);
    DivideTwice(inRank, ranks, l.rank, u, offset);
    DivideOnce(l.row, banks, l.bank);
    RestInProduct(l.rank, u, ranks, offset);
    Regroup(inRank, ranks, l.rank, u, offset);
    DivideTwice(l.row, banks, l.bank, u * ranks, l.rank * u + offset);
    assert n == inRank * (u * ranks) + (l.rank * u + offset);
  }

  /** So this is what a request for the page becomes in the queue, with its operation and the time it entered. */
  lemma PageEnqueued(cfg: Config, ch: Chan, l: Location, offset: nat)
    requires Paged(cfg) && Shape(cfg, ch) && ch.free != [] && ch.arrivals != []
    requires l.rank < cfg.numRanks && l.bank < cfg.numBanks && offset < cfg.rankUnit
    requires ch.arrivals[0].pAddr == PageAt(cfg, l) * cfg.rankUnit + offset
    ensures var m := Enqueue(cfg, ch).q[ch.free[0]];
      && m.valid && m.rank == l.rank && m.bank == l.bank && m.row == l.row && m.ts == ch.clock
      && (m.isRead <==> ch.arrivals[0].op != MemWrite && ch.arrivals[0].op != MemPush)
  {
    PageDecodes(cfg, l, offset);
    hide PageAt, Decode;
  }

  /** Two addresses have their rank, bank and row in common exactly if they lie in one page. */
  lemma SamePlaceExactly(cfg: Config, x: nat, y: nat)
    requires Paged(cfg)
    ensures Decode(cfg, x) == Decode(cfg, y) <==> x / cfg.rankUnit == y / cfg.rankUnit
  {
    var u := cfg.rankUnit;
    DecodesToPage(cfg, x);
    DecodesToPage(cfg, y);
    hide Decode, PageAt;
  }

  lemma Digits(n: nat, b: nat) returns (q: nat, m: nat)
    requires b > 0
    ensures n == q * b + m && m < b && q == n / b
  {
    q, m := n / b, n % b;
  }

  /** From the place back to the page. */
  lemma DecodesToPage(cfg: Config, x: nat)
    requires Paged(cfg)
    ensures PageAt(cfg, Decode(cfg, x)) == x / cfg.rankUnit
    ensures Decode(cfg, x / cfg.rankUnit * cfg.rankUnit) == Decode(cfg, x)
  {
    hide Decode;
    var page, offset := Digits(x, cfg.rankUnit);
    var inRank, rank := Digits(page, cfg.numRanks);
    var row, bank := Digits(inRank, cfg.numBanks);
    var l := Location(rank, bank, row);
    assert PageAt(cfg, l) == page;
    hide PageAt;
    PageDecodes(cfg, l, offset);
    PageDecodes(cfg, l, 0);
  }
}
