/** The traffic-light colours the KPI cards use, and the threshold rules that
    choose them. */
module Colours {

  datatype Colour = Green | Orange | Red | Grey

  /** The hexadecimal colour the cards are drawn with. */
  function Hex(c: Colour): string
  {
    match c
    case Green => "#2ca02c"
    case Orange => "#ffa500"
    case Red => "#d62728"
    case Grey => "#999"
  }

  /** How bad a colour is: green 0, orange 1, red 2. */
  function Severity(c: Colour): nat
  {
    match c
    case Green => 0
    case Orange => 1
    case Red => 2
    case Grey => 0
  }

  /** A higher-is-better metric: green from `green` up, orange from `orange` up,
      red below. */
  function AtLeastRule(v: real, green: real, orange: real): (c: Colour)
    ensures c == Green <==> v >= green
    ensures c == Orange <==> orange <= v < green
    ensures c == Red <==> v < orange && v < green
  {
    if v >= green then Green else if v >= orange then Orange else Red
  }

  /** A lower-is-better metric: green below `green`, orange below `orange`,
      red from there up. */
  function BelowRule(v: real, green: real, orange: real): (c: Colour)
    ensures c == Green <==> v < green
    ensures c == Orange <==> green <= v < orange
    ensures c == Red <==> v >= orange && v >= green
  {
    if v < green then Green else if v < orange then Orange else Red
  }

  /** A two-colour rule: red once the value exceeds `limit`. */
  function AboveIsRed(v: real, limit: real): (c: Colour)
    ensures c == Red <==> v > limit
    ensures c == Green <==> v <= limit
  {
    if v > limit then Red else Green
  }

  /** A two-colour rule: green once the value reaches `limit`. */
  function AtLeastIsGreen(v: real, limit: real): (c: Colour)
    ensures c == Green <==> v >= limit
    ensures c == Red <==> v < limit
  {
    if v >= limit then Green else Red
  }

  /** Every rule picks one of green, orange and red, never the grey of an empty table. */
  lemma RulesNeverGrey(v: real, green: real, orange: real)
    ensures AtLeastRule(v, green, orange) != Grey && BelowRule(v, green, orange) != Grey
    ensures AboveIsRed(v, green) != Grey && AtLeastIsGreen(v, green) != Grey
  {
  }

  /** A better value on a higher-is-better metric never gets a worse colour. */
  lemma AtLeastRuleMonotone(v: real, w: real, green: real, orange: real)
    requires v <= w
    ensures Severity(AtLeastRule(w, green, orange)) <= Severity(AtLeastRule(v, green, orange))
  {
  }

  /** A better value on a lower-is-better metric never gets a worse colour. */
  lemma BelowRuleMonotone(v: real, w: real, green: real, orange: real)
    requires v <= w
    ensures Severity(BelowRule(v, green, orange)) <= Severity(BelowRule(w, green, orange))
  {
  }
}
