/** Ledger entries `{who:, type:, amount:}` of levels 4 and 5, and what it means
    for a rental's ledger to balance. */
module Actions {

  datatype Direction = Debit | Credit

  datatype Action = Action(who: string, kind: Direction, amount: int)

  function DebitTotal(actions: seq<Action>): int
  {
    if actions == [] then 0
    else (if actions[0].kind == Debit then actions[0].amount else 0) + DebitTotal(actions[1..])
  }

  function CreditTotal(actions: seq<Action>): int
  {
    if actions == [] then 0
    else (if actions[0].kind == Credit then actions[0].amount else 0) + CreditTotal(actions[1..])
  }

  /** Money conservation: what is debited is exactly what is credited. */
  predicate Balanced(actions: seq<Action>)
  {
    DebitTotal(actions) == CreditTotal(actions)
  }

  /** The five-entry ledger both levels produce: one driver debit, then credits
      to the owner, insurance, assistance and the platform (`drivy`), in that order. */
  function FiveEntries(driver: int, owner: int, insurance: int, assistance: int, drivy: int): (actions: seq<Action>)
    ensures DebitTotal(actions) == driver
    ensures CreditTotal(actions) == owner + insurance + assistance + drivy
  {
    var actions := [Action("driver", Debit, driver), Action("owner", Credit, owner),
                    Action("insurance", Credit, insurance), Action("assistance", Credit, assistance),
                    Action("drivy", Credit, drivy)];
    var t1, t2, t3, t4 := actions[1..], actions[2..], actions[3..], actions[4..];
    assert actions[4..][1..] == [];
    assert t3[1..] == t4 && t2[1..] == t3 && t1[1..] == t2;
    assert DebitTotal(t4) == 0 && CreditTotal(t4) == drivy;
    assert DebitTotal(t3) == 0 && CreditTotal(t3) == assistance + drivy;
    assert DebitTotal(t2) == 0 && CreditTotal(t2) == insurance + assistance + drivy;
    assert DebitTotal(t1) == 0 && CreditTotal(t1) == owner + insurance + assistance + drivy;
    actions
  }
}
