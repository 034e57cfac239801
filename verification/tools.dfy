/** The client's command words: the text a button or a typed command sends
    is turned into a protocol action. */
module Tools {
  import opened Model

  /** ToAction for &str: five command words name an action, every other
      text is Invalid. */
  function ToAction(s: string): (a: Action)
    ensures a in {Identify, Roll, BuyAll, BuyProperty, SkipBuyProperty, Invalid}
  {
    match s
    case "identify" => Identify
    case "roll" => Roll
    case "buy_all" => BuyAll
    case "buy" => BuyProperty
    case "skip" => SkipBuyProperty
    case _ => Invalid
  }

  /** The command word of an action, for the five actions that have one. */
  function CommandWord(a: Action): (w: Option<string>)
    ensures w.Some? <==> a in {Identify, Roll, BuyAll, BuyProperty, SkipBuyProperty}
  {
    match a
    case Identify => Some("identify")
    case Roll => Some("roll")
    case BuyAll => Some("buy_all")
    case BuyProperty => Some("buy")
    case SkipBuyProperty => Some("skip")
    case _ => None
  }

  /** The five command words. */
  const Words: set<string> := {"identify", "roll", "buy_all", "buy", "skip"}

  /** Exactly the five command words give an action other than Invalid, and
      ToAction and CommandWord are inverse on them. */
  lemma ToActionWords(s: string)
    ensures ToAction(s) != Invalid <==> s in Words
    ensures s in Words ==> CommandWord(ToAction(s)) == Some(s)
  {
  }

  /** Every action with a command word is reached from that word. */
  lemma CommandWordRoundTrip(a: Action)
    requires CommandWord(a).Some?
    ensures ToAction(CommandWord(a).value) == a
  {
  }

  /** Matching is exact: no change of case, no padding. */
  lemma ToActionExact()
    ensures ToAction("") == Invalid
    ensures ToAction("Roll") == Invalid && ToAction("ROLL") == Invalid
    ensures ToAction("roll ") == Invalid && ToAction("buy all") == Invalid
  {
  }
}
