/**
 * The command-history cursor of the console utility (example/console.js):
 * Enter records the typed command, Ctrl-Up and Ctrl-Down walk the history,
 * and `init` normalises its options. DOM output, `eval` of the command and
 * the console method overrides are not part of this model.
 */
module ConsoleHistory {
  import opened Wrappers

  /** One recorded command; `date` stands for the `Date` taken when it was entered. */
  datatype HistoryEntry = HistoryEntry(command: string, date: int)

  /** What `back` and `next` return: a recorded entry, or the placeholder `{command: ""}`. */
  datatype Recalled = Recorded(entry: HistoryEntry) | Placeholder {
    function Command(): string {
      match this
      case Recorded(e) => e.command
      case Placeholder => ""
    }
  }

  const KeyEnterCode := 13
  const KeyUpCode := 38
  const KeyDownCode := 40

  datatype KeyEvent = KeyEvent(keyCode: int, ctrlKey: bool, shiftKey: bool)

  /** The cursor sits at -1 while the history is empty and within `[0, |history|]` afterwards. */
  ghost predicate CursorInRange(history: seq<HistoryEntry>, current: int) {
    if |history| == 0 then current == -1 else 0 <= current <= |history|
  }

  /**
   * `history.back()`: the cursor steps back; when no entry sits there it
   * steps forward again and the placeholder is returned.
   */
  function StepBack(history: seq<HistoryEntry>, current: int): (r: (int, Recalled))
    ensures r.1.Recorded? <==> 0 <= current - 1 < |history|
    ensures r.1.Recorded? ==> r.0 == current - 1 && r.1.entry == history[r.0]
    ensures r.1.Placeholder? ==> r.0 == current
    ensures CursorInRange(history, current) ==> CursorInRange(history, r.0)
  {
    var c := current - 1;
    if 0 <= c < |history| then (c, Recorded(history[c])) else (c + 1, Placeholder)
  }

  /** `history.next()`: the same with the cursor stepping forward. */
  function StepNext(history: seq<HistoryEntry>, current: int): (r: (int, Recalled))
    ensures r.1.Recorded? <==> 0 <= current + 1 < |history|
    ensures r.1.Recorded? ==> r.0 == current + 1 && r.1.entry == history[r.0]
    ensures r.1.Placeholder? ==> r.0 == current
    ensures CursorInRange(history, current) ==> CursorInRange(history, r.0)
  {
    var c := current + 1;
    if 0 <= c < |history| then (c, Recorded(history[c])) else (c - 1, Placeholder)
  }

  /** The cursor and the last recall after `k` presses of Ctrl-Up from `current`. */
  function BackTimes(history: seq<HistoryEntry>, current: int, k: nat): (int, Recalled)
  {
    if k == 0 then (current, Placeholder)
    else StepBack(history, BackTimes(history, current, k - 1).0)
  }

  /** After Enter the cursor is `|history|`; the `k`-th Ctrl-Up then recalls the `k`-th most recent command. */
  lemma {:induction false} BackRecallsRecent(history: seq<HistoryEntry>, k: nat)
    requires 1 <= k <= |history|
    ensures BackTimes(history, |history|, k) == (|history| - k, Recorded(history[|history| - k]))
  {
    if k > 1 {
      BackRecallsRecent(history, k - 1);
    }
  }

  /** Past the oldest command Ctrl-Up keeps the cursor on it and yields the placeholder. */
  lemma {:induction false} BackStopsAtOldest(history: seq<HistoryEntry>, k: nat)
    requires |history| < k
    ensures BackTimes(history, |history|, k) == (0, Placeholder)
  {
    if k - 1 == |history| {
      if |history| > 0 {
        BackRecallsRecent(history, |history|);
      }
    } else {
      BackStopsAtOldest(history, k - 1);
    }
  }

  /** Ctrl-Down undoes a Ctrl-Up that found an entry below the newest one. */
  lemma NextUndoesBack(history: seq<HistoryEntry>, current: int)
    requires 0 < current < |history|
    ensures StepNext(history, StepBack(history, current).0) == (current, Recorded(history[current]))
  {
  }

  class ConsoleJS {
    var history: seq<HistoryEntry>
    var current: int

    ghost predicate Valid()
      reads this
    {
      CursorInRange(history, current)
    }

    /** `new ConsoleJS()`: empty history, cursor at -1. */
    constructor ()
      ensures Valid()
      ensures history == [] && current == -1
    {
      history := [];
      current := -1;
    }

    /** `history.back()`; the history is left alone. */
    method Back() returns (res: Recalled)
      requires Valid()
      modifies this`current
      ensures Valid()
      ensures (current, res) == StepBack(history, old(current))
    {
      current := current - 1;
      if 0 <= current < |history| {
        res := Recorded(history[current]);
      } else {
        current := current + 1;
        res := Placeholder;
      }
    }

    /** `history.next()`; the history is left alone. */
    method Next() returns (res: Recalled)
      requires Valid()
      modifies this`current
      ensures Valid()
      ensures (current, res) == StepNext(history, old(current))
    {
      current := current + 1;
      if 0 <= current < |history| {
        res := Recorded(history[current]);
      } else {
        current := current - 1;
        res := Placeholder;
      }
    }

    /**
     * The keydown handler of the input element, given the element's value and
     * the time: Ctrl-Up and Ctrl-Down replace the value by the recalled
     * command; Enter without Shift records the value, moves the cursor past
     * the newest entry and clears the value; any other key changes nothing.
     */
    method OnKeyDown(e: KeyEvent, value: string, now: int) returns (newValue: string)
      requires Valid()
      modifies this`history, this`current
      ensures Valid()
      ensures e.keyCode == KeyUpCode && e.ctrlKey ==>
                && history == old(history)
                && (current, newValue) == (StepBack(history, old(current)).0, StepBack(history, old(current)).1.Command())
      ensures e.keyCode == KeyDownCode && e.ctrlKey ==>
                && history == old(history)
                && (current, newValue) == (StepNext(history, old(current)).0, StepNext(history, old(current)).1.Command())
      ensures !e.ctrlKey || (e.keyCode != KeyUpCode && e.keyCode != KeyDownCode) ==>
                if e.keyCode == KeyEnterCode && !e.shiftKey then
                  && history == old(history) + [HistoryEntry(value, now)]
                  && current == |history|
                  && newValue == ""
                else
                  history == old(history) && current == old(current) && newValue == value
    {
      if e.keyCode == KeyUpCode && e.ctrlKey {
        var res := Back();
        return res.Command();
      }
      if e.keyCode == KeyDownCode && e.ctrlKey {
        var res := Next();
        return res.Command();
      }
      if e.keyCode != KeyEnterCode || e.shiftKey {
        return value;
      }
      history := history + [HistoryEntry(value, now)];
      current := |history|;
      newValue := "";
    }
  }

  // ---------------------------------------------------------------------
  // init's options

  /** The JavaScript values `init` can be given; `Options` is an object literal with `selector` and `input`. */
  datatype JsValue =
    | Undefined
    | Null
    | Bool(b: bool)
    | Num(n: int)
    | Str(s: string)
    | Element(id: nat)
    | Options(selector: JsValue, input: JsValue)

  predicate Truthy(v: JsValue) {
    match v
    case Undefined => false
    case Null => false
    case Bool(b) => b
    case Num(n) => n != 0
    case Str(s) => s != ""
    case Element(_) => true
    case Options(_, _) => true
  }

  /** `typeof v === "object"`: null, DOM elements and object literals. */
  predicate IsObject(v: JsValue) {
    v.Null? || v.Element? || v.Options?
  }

  /** `v.selector`: only an object literal carries one. */
  function SelectorOf(v: JsValue): JsValue {
    if v.Options? then v.selector else Undefined
  }

  const SelectorRequired := "options.selector is required"

  /**
   * `init`'s option handling: a falsy argument becomes `{}`, any other
   * non-object becomes `{selector: options}`, and a missing or falsy
   * selector throws. The options are accepted exactly when the argument is a
   * truthy non-object, or an object literal with a truthy selector, and are
   * then the argument, wrapped in the first case.
   */
  function NormalizeOptions(options: JsValue): (r: Result<JsValue, string>)
    ensures r.Success? <==> (Truthy(options) && !IsObject(options)) || (options.Options? && Truthy(options.selector))
    ensures r.Success? ==> r.value.Options? && Truthy(r.value.selector)
    ensures r.Success? && options.Options? ==> r.value == options
    ensures r.Success? && !options.Options? ==> r.value == Options(options, Undefined)
    ensures r.Failure? ==> r.error == SelectorRequired
  {
    var given := if Truthy(options) then options else Options(Undefined, Undefined);
    var opts := if !IsObject(given) then Options(given, Undefined) else given;
    if !Truthy(SelectorOf(opts)) then Failure(SelectorRequired) else Success(opts)
  }

  /** A DOM element passed directly has no `selector` field and is refused, although the documentation lists it. */
  lemma ElementArgumentRefused(id: nat)
    ensures NormalizeOptions(Element(id)) == Failure(SelectorRequired)
  {
  }

  /**
   * The option handling `init`'s documentation describes: a DOM element given
   * directly is taken as the selector, like a query string. Every other
   * argument is handled as `NormalizeOptions` handles it.
   */
  function NormalizeOptionsDocumented(options: JsValue): (r: Result<JsValue, string>)
    ensures r.Success? <==>
              || (Truthy(options) && !IsObject(options))
              || options.Element?
              || (options.Options? && Truthy(options.selector))
    ensures options.Element? ==> r == Success(Options(options, Undefined))
    ensures !options.Element? ==> r == NormalizeOptions(options)
  {
    if options.Element? then Success(Options(options, Undefined)) else NormalizeOptions(options)
  }
}
