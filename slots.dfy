/**
 The spin engine of the casino (script.js, `CasinoGame.updateTotalBet`,
 `generateSpinResults`, `generateClassicSlotsResults`,
 `generateDiamondRushResults`, `calculateWin`).

 `Math.random()` is replaced by explicit inputs: a `Draw` holds the three reel
 positions `Math.floor(Math.random() * 6)` would have produced, and the two
 bonus paylines are booleans (`Math.random() < 0.25`).
 */
module Slots {
  import opened Wrappers

  /** Number of paylines a bet is placed on. */
  const Paylines: real := 5.0

  /** A reel position: an index into a six-symbol set. */
  type Pick = i: int | 0 <= i < 6

  /** The three reel positions of one spin. */
  datatype Draw = Draw(first: Pick, second: Pick, third: Pick)

  /** The symbols of Classic Slots, in the source's order. */
  const ClassicSymbols: seq<string> :=
    ["\U{1F3AF}", "\U{1F451}", "\U{1F4B0}", "\U{2B50}", "\U{1F514}", "7\U{FE0F}\U{20E3}"]

  /** The symbols of Diamond Rush, in the source's order. */
  const DiamondRushSymbols: seq<string> :=
    ["\U{1F48E}", "\U{1F48D}", "\U{1F3C6}", "\U{26A1}", "\U{1F31F}", "\U{1F4AB}"]

  /** No symbol appears twice in a set. */
  predicate Distinct(symbols: seq<string>)
  {
    forall i, j :: 0 <= i < j < |symbols| ==> symbols[i] != symbols[j]
  }

  lemma SymbolSets()
    ensures |ClassicSymbols| == 6 && Distinct(ClassicSymbols)
    ensures |DiamondRushSymbols| == 6 && Distinct(DiamondRushSymbols)
    ensures forall s :: s in ClassicSymbols ==> s !in DiamondRushSymbols
  {
  }

  /** The amount a spin stakes: the bet per line on every payline. */
  function TotalBet(betPerLine: real): (total: real)
    ensures total == Paylines * betPerLine
    ensures (total > 0.0) == (betPerLine > 0.0) && (total < 0.0) == (betPerLine < 0.0)
  {
    betPerLine * 5.0
  }

  /** The total shown beside the bet field: an unparsable field (`NaN`, and
      also `0`, through `|| 0`) counts as a bet of 0. */
  function DisplayedTotalBet(betField: Option<real>): (total: real)
    ensures betField.None? ==> total == 0.0
    ensures betField.Some? ==> total == Paylines * betField.value
  {
    var betPerLine := if betField.Some? then betField.value else 0.0;
    TotalBet(betPerLine)
  }

  /** The three symbols a draw shows on a six-symbol set. */
  function Reels(symbols: seq<string>, d: Draw): (reels: seq<string>)
    requires |symbols| == 6 && Distinct(symbols)
    ensures |reels| == 3 && forall k :: 0 <= k < 3 ==> reels[k] in symbols
    ensures (reels[0] == reels[1]) == (d.first == d.second)
    ensures (reels[1] == reels[2]) == (d.second == d.third)
    ensures (reels[0] == reels[2]) == (d.first == d.third)
  {
    [symbols[d.first], symbols[d.second], symbols[d.third]]
  }

  /** Position of a symbol in a set that holds it. */
  function IndexOf(symbols: seq<string>, s: string): (i: nat)
    requires s in symbols
    ensures i < |symbols| && symbols[i] == s
  {
    if symbols[0] == s then 0 else 1 + IndexOf(symbols[1..], s)
  }

  /** Every arrangement of three symbols of a set is shown by some draw: the
      draw inputs lose none of the outcomes the random source could produce. */
  lemma ReelsOnto(symbols: seq<string>, reels: seq<string>)
    requires |symbols| == 6 && Distinct(symbols)
    requires |reels| == 3 && forall k :: 0 <= k < 3 ==> reels[k] in symbols
    ensures exists d :: Reels(symbols, d) == reels
  {
    var d := Draw(IndexOf(symbols, reels[0]), IndexOf(symbols, reels[1]), IndexOf(symbols, reels[2]));
    assert Reels(symbols, d) == reels;
  }

  function ClassicSlotsResults(d: Draw): (reels: seq<string>)
    ensures |reels| == 3 && forall k :: 0 <= k < 3 ==> reels[k] in ClassicSymbols
    ensures (reels[0] == reels[1]) == (d.first == d.second)
    ensures (reels[1] == reels[2]) == (d.second == d.third)
    ensures (reels[0] == reels[2]) == (d.first == d.third)
  {
    SymbolSets();
    Reels(ClassicSymbols, d)
  }

  function DiamondRushResults(d: Draw): (reels: seq<string>)
    ensures |reels| == 3 && forall k :: 0 <= k < 3 ==> reels[k] in DiamondRushSymbols
    ensures (reels[0] == reels[1]) == (d.first == d.second)
    ensures (reels[1] == reels[2]) == (d.second == d.third)
    ensures (reels[0] == reels[2]) == (d.first == d.third)
  {
    SymbolSets();
    Reels(DiamondRushSymbols, d)
  }

  /** The reels of a spin of the selected game: `"classic"` draws Classic
      Slots symbols, any other game (or none) Diamond Rush symbols. */
  function GenerateSpinResults(currentGame: Option<string>, d: Draw): (reels: seq<string>)
    ensures |reels| == 3
    ensures currentGame == Some("classic") ==> forall k :: 0 <= k < 3 ==> reels[k] in ClassicSymbols
    ensures currentGame != Some("classic") ==> forall k :: 0 <= k < 3 ==> reels[k] in DiamondRushSymbols
  {
    if currentGame == Some("classic") then ClassicSlotsResults(d) else DiamondRushResults(d)
  }

  /** What a triggered bonus payline adds. */
  function Bonus(triggered: bool, betPerLine: real): real
  {
    if triggered then betPerLine * 2.0 else 0.0
  }

  /** The amount paylines 1-3 contribute, as a multiple of the bet per line:
      the first rule that matches pays, and no other. */
  function PositionalMultiplier(reels: seq<string>): (m: int)
    requires |reels| == 3
    ensures m in {0, 3, 5, 50}
  {
    if reels[0] == reels[1] == reels[2] then 50
    else if reels[0] == reels[1] then 5
    else if reels[1] == reels[2] then 3
    else 0
  }

  /**
   The payout of a spin. Paylines 1-3 are a priority chain: three equal reels
   pay 50 lines, otherwise equal first and second reels pay 5, otherwise equal
   second and third reels pay 3; at most one of them pays. Paylines 4 and 5
   are independent bonuses of 2 lines each.
   */
  function CalculateWin(reels: seq<string>, betPerLine: real, bonus4: bool, bonus5: bool): (win: real)
    requires |reels| == 3
    ensures var bonuses := Bonus(bonus4, betPerLine) + Bonus(bonus5, betPerLine);
      && (reels[0] == reels[1] == reels[2] ==> win == 50.0 * betPerLine + bonuses)
      && (reels[0] == reels[1] != reels[2] ==> win == 5.0 * betPerLine + bonuses)
      && (reels[0] != reels[1] == reels[2] ==> win == 3.0 * betPerLine + bonuses)
      && (reels[0] != reels[1] && reels[1] != reels[2] ==> win == bonuses)
  {
    var winAmount := betPerLine * PositionalMultiplier(reels) as real;
    var afterPayline4 := if bonus4 then winAmount + betPerLine * 2.0 else winAmount;
    if bonus5 then afterPayline4 + betPerLine * 2.0 else afterPayline4
  }

  /** The payout is the positional amount plus two lines per triggered bonus. */
  lemma WinDecomposes(reels: seq<string>, betPerLine: real, bonus4: bool, bonus5: bool)
    requires |reels| == 3
    ensures CalculateWin(reels, betPerLine, bonus4, bonus5)
         == betPerLine * (PositionalMultiplier(reels) as real
                          + (if bonus4 then 2.0 else 0.0) + (if bonus5 then 2.0 else 0.0))
  {
  }

  /** A non-negative bet never loses money on the payout and wins at most 54 lines;
      a negative bet never wins. */
  lemma WinBounds(reels: seq<string>, betPerLine: real, bonus4: bool, bonus5: bool)
    requires |reels| == 3
    ensures betPerLine >= 0.0 ==> 0.0 <= CalculateWin(reels, betPerLine, bonus4, bonus5) <= 54.0 * betPerLine
    ensures betPerLine <= 0.0 ==> 54.0 * betPerLine <= CalculateWin(reels, betPerLine, bonus4, bonus5) <= 0.0
  {
    WinDecomposes(reels, betPerLine, bonus4, bonus5);
    var m := PositionalMultiplier(reels) as real + (if bonus4 then 2.0 else 0.0) + (if bonus5 then 2.0 else 0.0);
    assert 0.0 <= m <= 54.0;
  }
}
