/** Treasury entries: the only way real metal and real capital enter or leave the books. */
module TreasuryEntries {
  import opened Options
  import opened Sums
  import opened Books
  import opened Journal

  // Record an intake or an outtake; an outtake may not leave less metal than is owed.
  function RecordVault(b: State, g: State, metal: Metal, kind: VaultKind, gramsMg: int): (c: Option<Change>)
    ensures c.Some? ==> ChangeFits(g, c.value) && c.value == Change(WriteNothing, None, None, c.value.stock, None)
  {
    var owed := -Balance(b.log, Vault(metal));
    if gramsMg <= 0 then None
    else if kind == Outtake && Physical(g.vault, metal) - gramsMg < (if owed > 0 then owed else 0) then None
    else Some(Change(WriteNothing, None, None, Some(VaultRow(metal, kind, gramsMg)), None))
  }

  datatype Direction = In | Out

  // Move capital; taking it out may not push cash below the halt threshold.
  function RecordCapital(cfg: Config, b: State, direction: Direction, amount: int): (c: Option<Change>)
    ensures c.Some? ==> c.value.row.WriteCapital? && c.value == Change(c.value.row, c.value.post, None, None, None)
  {
    if amount <= 0 then None
    else if direction == Out && Balance(b.log, Cash) - amount < cfg.halt then None
    else
      var signed := if direction == In then amount else -amount;
      Some(RowAndPost(WriteCapital(signed), CapitalMove(signed)))
  }

  lemma RecordVaultLawful(cfg: Config, s: State, metal: Metal, kind: VaultKind, gramsMg: int)
    ensures var c := RecordVault(s, s, metal, kind, gramsMg);
            c.Some? ==> Lawful(cfg.halt, s, c.value)
  {
    hide Balance, Sum, Shape, Physical;
  }

  lemma RecordCapitalLawful(cfg: Config, s: State, direction: Direction, amount: int)
    ensures var c := RecordCapital(cfg, s, direction, amount);
            c.Some? ==> Lawful(cfg.halt, s, c.value)
  {
    hide Balance, Sum, Shape;
  }
}
