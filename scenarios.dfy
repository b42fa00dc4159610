/** Key sequences pressed on a freshly mounted calculator, and what the
    handlers of module CalculatorEngine leave behind. The number conversions
    stay abstract, so results are stated through `parseFloat` and `String(n)`
    of the given `conv`. Each `t` parameter is the clock reading of one key press. */
module Scenarios {
  import opened Numbers
  import opened CalculatorEngine

  /** 7 + 3 = : one entry, "7 + 3", and the sum on the display. */
  method SevenPlusThree(conv: Conversions, t1: int, t2: int)
    returns (display: string, history: seq<HistoryEntry>)
    ensures history == [Entry(conv, t2, conv.parseFloat("7"), '+', conv.parseFloat("3"))]
    ensures display == conv.toString(Calculate(conv.parseFloat("7"), conv.parseFloat("3"), '+'))
    ensures conv.parseFloat("7") == Finite(7.0) && conv.parseFloat("3") == Finite(3.0) ==>
              display == conv.toString(Finite(10.0))
  {
    var c := new Calculator(conv);
    c.InputNumber(7);
    c.PerformOperation('+', t1);
    c.InputNumber(3);
    c.HandleEquals(t2);
    display, history := c.display, c.history;
  }

  /** 5 * = : equals right after an operator still computes, with the
      displayed 5 as second operand, and records an entry. */
  method OperatorThenEquals(conv: Conversions, t1: int, t2: int)
    returns (display: string, history: seq<HistoryEntry>)
    ensures |history| == 1
    ensures history == [Entry(conv, t2, conv.parseFloat("5"), '*', conv.parseFloat("5"))]
    ensures display == conv.toString(Calculate(conv.parseFloat("5"), conv.parseFloat("5"), '*'))
  {
    var c := new Calculator(conv);
    c.InputNumber(5);
    c.PerformOperation('*', t1);
    c.HandleEquals(t2);
    display, history := c.display, c.history;
  }

  /** 9 / 0 = : the quotient is 0, not an error. */
  method DivideByZero(conv: Conversions, t1: int, t2: int)
    returns (display: string, history: seq<HistoryEntry>)
    ensures history == [Entry(conv, t2, conv.parseFloat("9"), '/', conv.parseFloat("0"))]
    ensures conv.parseFloat("0") == Finite(0.0) ==>
              display == conv.toString(Finite(0.0)) &&
              history[0].result == FormatNumber(conv, Finite(0.0))
  {
    var c := new Calculator(conv);
    c.InputNumber(9);
    c.PerformOperation('/', t1);
    c.InputNumber(0);
    c.HandleEquals(t2);
    display, history := c.display, c.history;
  }

  /** 2 + 3 + 4 = : the second '+' completes "2 + 3" and its result is the
      first operand of "5 + 4"; two entries, newest first. */
  method Chain(conv: Conversions, t1: int, t2: int, t3: int)
    returns (display: string, history: seq<HistoryEntry>)
    ensures
      var p2, p3, p4 := conv.parseFloat("2"), conv.parseFloat("3"), conv.parseFloat("4");
      var sum := Calculate(OrZero(p2), p3, '+');
      history == [Entry(conv, t3, sum, '+', p4), Entry(conv, t2, OrZero(p2), '+', p3)] &&
      display == conv.toString(Calculate(sum, p4, '+'))
    ensures conv.parseFloat("2") == Finite(2.0) && conv.parseFloat("3") == Finite(3.0) &&
            conv.parseFloat("4") == Finite(4.0) ==>
              display == conv.toString(Finite(9.0))
  {
    var c := new Calculator(conv);
    c.InputNumber(2);
    c.PerformOperation('+', t1);
    c.InputNumber(3);
    c.PerformOperation('+', t2);
    c.InputNumber(4);
    c.HandleEquals(t3);
    display, history := c.display, c.history;
  }

  /** 5 + * 3 = : the second operator press only replaces the first. */
  method ReplacedOperator(conv: Conversions, t1: int, t2: int, t3: int)
    returns (display: string, history: seq<HistoryEntry>)
    ensures history == [Entry(conv, t3, conv.parseFloat("5"), '*', conv.parseFloat("3"))]
    ensures display == conv.toString(Calculate(conv.parseFloat("5"), conv.parseFloat("3"), '*'))
  {
    var c := new Calculator(conv);
    c.InputNumber(5);
    c.PerformOperation('+', t1);
    assert c.previousValue == Some(conv.parseFloat("5")) && c.history == [];
    c.PerformOperation('*', t2);
    assert c.previousValue == Some(conv.parseFloat("5")) && c.history == [];
    c.InputNumber(3);
    c.HandleEquals(t3);
    display, history := c.display, c.history;
  }

  /** 1 . 2 . 3 : the second decimal point is ignored. */
  method SecondDecimalPointIgnored(conv: Conversions) returns (display: string)
    ensures display == "1.23"
  {
    var c := new Calculator(conv);
    c.InputNumber(1);
    c.InputDecimal();
    c.InputNumber(2);
    c.InputDecimal();
    c.InputNumber(3);
    display := c.display;
  }

  /** 5 +/- backspace +/- : the display becomes "-" and then empty. */
  method DisplayEmptied(conv: Conversions) returns (display: string)
    ensures display == ""
  {
    var c := new Calculator(conv);
    c.InputNumber(5);
    c.ToggleSign();
    c.DeleteLast();
    c.ToggleSign();
    display := c.display;
  }

  /** 5 +/- backspace + 3 + : the first operand is parsed from "-"; when
      that is NaN, `previousValue || 0` makes the completed entry read "0 + 3". */
  method NaNOperandReadsAsZero(conv: Conversions, t1: int, t2: int)
    returns (history: seq<HistoryEntry>)
    ensures history == [Entry(conv, t2, OrZero(conv.parseFloat("-")), '+', conv.parseFloat("3"))]
    ensures conv.parseFloat("-") == NaN ==>
              history == [Entry(conv, t2, Finite(0.0), '+', conv.parseFloat("3"))]
  {
    var c := new Calculator(conv);
    c.InputNumber(5);
    c.ToggleSign();
    c.DeleteLast();
    assert c.display == "-" && c.previousValue == None && c.history == [];
    c.PerformOperation('+', t1);
    assert c.previousValue == Some(conv.parseFloat("-")) && c.operation == Some('+') && c.history == [];
    c.InputNumber(3);
    assert c.display == "3" && c.CompletesOperation();
    c.PerformOperation('+', t2);
    history := c.history;
  }

  /** 7 + 3 = C : clearing resets the display and keeps the history. */
  method ClearKeepsHistory(conv: Conversions, t1: int, t2: int)
    returns (display: string, history: seq<HistoryEntry>)
    ensures display == "0"
    ensures history == [Entry(conv, t2, conv.parseFloat("7"), '+', conv.parseFloat("3"))]
  {
    var c := new Calculator(conv);
    c.InputNumber(7);
    c.PerformOperation('+', t1);
    c.InputNumber(3);
    c.HandleEquals(t2);
    c.Clear();
    display, history := c.display, c.history;
  }

  /** 1 + 1 = , clear history, 2 + 2 = : only the later entry remains. */
  method HistoryClearedThenAppended(conv: Conversions, t1: int, t2: int, t3: int, t4: int)
    returns (history: seq<HistoryEntry>)
    ensures history == [Entry(conv, t4, conv.parseFloat("2"), '+', conv.parseFloat("2"))]
  {
    var c := new Calculator(conv);
    c.InputNumber(1);
    c.PerformOperation('+', t1);
    c.InputNumber(1);
    c.HandleEquals(t2);
    c.ClearHistory();
    c.InputNumber(2);
    c.PerformOperation('+', t3);
    c.InputNumber(2);
    c.HandleEquals(t4);
    history := c.history;
  }
}
