/** Two addresses of one bank that lie in different rows. */
module DDR2Conflict {
  import opened DDR2State
  import opened Products

  /** An address of the same bank as address 0, in another row. */
  function ConflictAddr(cfg: Config): nat {
    cfg.rankUnit * cfg.numRanks * cfg.bankUnit * cfg.numBanks * cfg.rowUnit
  }

  lemma TwiceMultiple(u: nat, m: nat, k: nat, n: nat)
    requires u > 0 && m > 0 && n == (k * m) * u
    ensures (n / u) % m == 0
  {
    MultipleGoes(k * m, u, n);
    MultipleGoes(k, m, k * m);
  }

  lemma Reordered(a: int, b: int, c: int, d: int, e: int)
    ensures a * b * c * d * e == ((c * d * e) * b) * a
    ensures a * b * c * d * e == ((a * b * e) * d) * c
  {
  }

  lemma PositiveProduct(a: nat, b: nat)
    requires a > 0 && b > 0
    ensures a * b > 0
  {
  }

  lemma ConflictRank(cfg: Config)
    requires cfg.Valid()
    ensures (ConflictAddr(cfg) / cfg.rankUnit) % cfg.numRanks == 0
  {
    Reordered(cfg.rankUnit, cfg.numRanks, cfg.bankUnit, cfg.numBanks, cfg.rowUnit);
    TwiceMultiple(cfg.rankUnit, cfg.numRanks, cfg.bankUnit * cfg.numBanks * cfg.rowUnit, ConflictAddr(cfg));
  }

  lemma ConflictBank(cfg: Config)
    requires cfg.Valid()
    ensures (ConflictAddr(cfg) / cfg.bankUnit) % cfg.numBanks == 0
  {
    Reordered(cfg.rankUnit, cfg.numRanks, cfg.bankUnit, cfg.numBanks, cfg.rowUnit);
    TwiceMultiple(cfg.bankUnit, cfg.numBanks, cfg.rankUnit * cfg.numRanks * cfg.rowUnit, ConflictAddr(cfg));
  }

  lemma ConflictRow(cfg: Config)
    requires cfg.Valid()
    ensures ConflictAddr(cfg) / cfg.rowUnit > 0
  {
    var n := cfg.rankUnit * cfg.numRanks;
    PositiveProduct(cfg.rankUnit, cfg.numRanks);
    PositiveProduct(n, cfg.bankUnit);
    PositiveProduct(n * cfg.bankUnit, cfg.numBanks);
    MultipleGoes(n * cfg.bankUnit * cfg.numBanks, cfg.rowUnit, ConflictAddr(cfg));
  }

  lemma ConflictDecodes(cfg: Config)
    requires cfg.Valid()
    ensures var l := Decode(cfg, ConflictAddr(cfg)); l.rank == 0 && l.bank == 0 && l.row > 0
    ensures Decode(cfg, 0) == Location(0, 0, 0)
  {
    hide ConflictAddr;
    ConflictRank(cfg);
    ConflictBank(cfg);
    ConflictRow(cfg);
  }
}
