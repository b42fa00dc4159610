/** The state and input handlers of the `Calculator` component
    (src/components/Calculator.jsx). Each handler reads the state of the
    current render and writes the next one, so it is a method that updates
    the fields of one `Calculator` object. */
module CalculatorEngine {
  import opened Text
  import opened Numbers
  import opened Display

  datatype Option<T> = None | Some(value: T)

  /** One line of the history panel. `id` is the wall-clock time at which it was made. */
  datatype HistoryEntry = HistoryEntry(id: int, expression: string, result: string)

  /** The entry recorded for `first op second`, as both handlers build it. */
  function Entry(conv: Conversions, id: int, first: Num, op: char, second: Num): HistoryEntry
  {
    HistoryEntry(
      id,
      FormatNumber(conv, first) + " " + OperationSymbol(op) + " " + FormatNumber(conv, second),
      FormatNumber(conv, Calculate(first, second, op)))
  }

  class Calculator {
    const conv: Conversions
    var display: string
    var previousValue: Option<Num>
    var operation: Option<char>
    var waitingForNewValue: bool
    /** Newest entry first. */
    var history: seq<HistoryEntry>

    /** Text typed since the last fresh start holds at most one decimal point. */
    ghost predicate Valid()
      reads this
    {
      !waitingForNewValue ==> Count(display, '.') <= 1
    }

    /** The state in which pressing an operator key completes a pending
        operation: a first operand, an operator, and a second operand typed since. */
    predicate CompletesOperation()
      reads this
    {
      previousValue.Some? && operation.Some? && !waitingForNewValue
    }

    constructor (conv: Conversions)
      ensures Valid() && this.conv == conv
      ensures display == "0" && previousValue == None && operation == None
      ensures !waitingForNewValue && history == []
    {
      this.conv := conv;
      display := "0";
      previousValue := None;
      operation := None;
      waitingForNewValue := false;
      history := [];
    }

    /** `inputNumber(num)`. */
    method InputNumber(num: nat)
      requires Valid() && num <= 9
      modifies this`display, this`waitingForNewValue
      ensures Valid() && !waitingForNewValue
      ensures old(waitingForNewValue) ==> display == [DigitChar(num)]
      ensures !old(waitingForNewValue) ==> display == DigitEntered(old(display), DigitChar(num))
    {
      if waitingForNewValue {
        display := [DigitChar(num)];
        waitingForNewValue := false;
      } else {
        ghost var before := display;
        display := if display == "0" then [DigitChar(num)] else display + [DigitChar(num)];
        assert display == DigitEntered(before, DigitChar(num));
      }
    }

    /** `inputDecimal()`. */
    method InputDecimal()
      requires Valid()
      modifies this`display, this`waitingForNewValue
      ensures Valid() && !waitingForNewValue && Count(display, '.') == 1
      ensures old(waitingForNewValue) ==> display == "0."
      ensures !old(waitingForNewValue) ==> display == DecimalEntered(old(display))
    {
      CountZeroIff(display, '.');
      if waitingForNewValue {
        display := "0.";
        waitingForNewValue := false;
      } else if IndexOf(display, '.') == -1 {
        CountConcat(display, ".", '.');
        display := display + ".";
      }
    }

    /** `clear()`: everything but the history goes back to its initial value. */
    method Clear()
      requires Valid()
      modifies this`display, this`previousValue, this`operation, this`waitingForNewValue
      ensures Valid()
      ensures display == "0" && previousValue == None && operation == None
      ensures !waitingForNewValue
    {
      display := "0";
      previousValue := None;
      operation := None;
      waitingForNewValue := false;
    }

    /** `performOperation(nextOperation)`; `now` stands for `Date.now()`. */
    method PerformOperation(nextOperation: char, now: int)
      requires Valid()
      modifies this`display, this`previousValue, this`operation, this`waitingForNewValue, this`history
      ensures Valid()
      ensures waitingForNewValue && operation == Some(nextOperation)
      ensures old(previousValue) == None ==>
                previousValue == Some(conv.parseFloat(old(display)))
      ensures old(CompletesOperation()) ==>
                var first := OrZero(old(previousValue).value);
                var second := conv.parseFloat(old(display));
                var result := Calculate(first, second, old(operation).value);
                history == [Entry(conv, now, first, old(operation).value, second)] + old(history) &&
                display == conv.toString(result) &&
                previousValue == Some(result)
      ensures !old(CompletesOperation()) ==>
                history == old(history) && display == old(display)
      ensures !old(CompletesOperation()) && old(previousValue) != None ==>
                previousValue == old(previousValue)
      ensures |history| == |old(history)| + (if old(CompletesOperation()) then 1 else 0)
      ensures history[|history| - |old(history)|..] == old(history)
    {
      var inputValue := conv.parseFloat(display);
      if previousValue == None {
        previousValue := Some(inputValue);
      } else if operation != None {
        if !waitingForNewValue {
          var currentValue := OrZero(previousValue.value);
          var newValue := Calculate(currentValue, inputValue, operation.value);
          var historyEntry := Entry(conv, now, currentValue, operation.value, inputValue);
          history := [historyEntry] + history;
          display := conv.toString(newValue);
          previousValue := Some(newValue);
        }
      }
      waitingForNewValue := true;
      operation := Some(nextOperation);
    }

    /** `handleEquals()`; `now` stands for `Date.now()`. Whether a second
        operand was typed (`waitingForNewValue`) plays no part. */
    method HandleEquals(now: int)
      requires Valid()
      modifies this`display, this`previousValue, this`operation, this`waitingForNewValue, this`history
      ensures Valid()
      ensures old(operation) == None || old(previousValue) == None ==>
                display == old(display) && previousValue == old(previousValue) &&
                operation == old(operation) && waitingForNewValue == old(waitingForNewValue) &&
                history == old(history)
      ensures old(operation) != None && old(previousValue) != None ==>
                var first := old(previousValue).value;
                var second := conv.parseFloat(old(display));
                var result := Calculate(first, second, old(operation).value);
                history == [Entry(conv, now, first, old(operation).value, second)] + old(history) &&
                display == conv.toString(result) &&
                previousValue == None && operation == None && waitingForNewValue
      ensures |history| == |old(history)| + (if old(operation) != None && old(previousValue) != None then 1 else 0)
      ensures history[|history| - |old(history)|..] == old(history)
    {
      if operation != None && previousValue != None {
        var inputValue := conv.parseFloat(display);
        var newValue := Calculate(previousValue.value, inputValue, operation.value);
        var historyEntry := Entry(conv, now, previousValue.value, operation.value, inputValue);
        history := [historyEntry] + history;
        display := conv.toString(newValue);
        previousValue := None;
        operation := None;
        waitingForNewValue := true;
      }
    }

    /** `clearHistory()`. */
    method ClearHistory()
      requires Valid()
      modifies this`history
      ensures Valid() && history == []
    {
      history := [];
    }

    /** `clearEntry()`: only the display is reset. */
    method ClearEntry()
      requires Valid()
      modifies this`display
      ensures Valid() && display == "0"
    {
      display := "0";
    }

    /** `deleteLast()`. */
    method DeleteLast()
      requires Valid()
      modifies this`display
      ensures Valid() && display == LastDeleted(old(display))
    {
      ghost var before := display;
      if |display| > 1 {
        display := display[..|display| - 1];
      } else {
        display := "0";
      }
      assert display == LastDeleted(before);
    }

    /** `toggleSign()`. */
    method ToggleSign()
      requires Valid()
      modifies this`display
      ensures Valid() && display == SignToggled(old(display))
    {
      ghost var before := display;
      if display != "0" {
        display := if |display| > 0 && display[0] == '-' then display[1..] else "-" + display;
      }
      assert display == SignToggled(before);
    }
  }
}
