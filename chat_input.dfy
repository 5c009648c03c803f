/** The chat input box: the draft the user is typing and the latch that
    reports the first keystroke of the session exactly once. */
module ChatInput {

  import opened Wrappers
  import opened Text

  /** Some value among those typed so far is not empty. */
  predicate Started(values: seq<string>)
  {
    exists i | 0 <= i < |values| :: values[i] != ""
  }

  /** How many times the first-keystroke callback fires over a sequence of
      input values: a value fires it when it is not empty and no earlier
      value has started typing. */
  function Fires(values: seq<string>): nat
  {
    if |values| == 0 then 0
    else
      var prefix := values[..|values| - 1];
      Fires(prefix) + (if !Started(prefix) && values[|values| - 1] != "" then 1 else 0)
  }

  /** Typing has started after one more value exactly when it had started
      before or that value is not empty. */
  lemma StartedSnoc(prefix: seq<string>, v: string)
    ensures Started(prefix + [v]) <==> Started(prefix) || v != ""
  {
    var values := prefix + [v];
    if Started(prefix) {
      var i :| 0 <= i < |prefix| && prefix[i] != "";
      assert values[i] == prefix[i];
    }
    if v != "" {
      assert values[|prefix|] == v;
    }
  }

  /** The callback fires once if some value typed was not empty, and never
      otherwise. */
  lemma {:induction false} FiresAtMostOnce(values: seq<string>)
    ensures Fires(values) == if Started(values) then 1 else 0
  {
    if |values| > 0 {
      var prefix := values[..|values| - 1];
      FiresAtMostOnce(prefix);
      assert values == prefix + [values[|values| - 1]];
      StartedSnoc(prefix, values[|values| - 1]);
    }
  }

  class ChatInputBox {
    var message: string
    var hasStartedTyping: bool
    /** The input values seen so far, and how often the callback fired. */
    ghost var changes: seq<string>
    ghost var fired: nat

    ghost predicate Valid()
      reads this
    {
      && (hasStartedTyping <==> Started(changes))
      && fired == Fires(changes)
    }

    constructor ()
      ensures Valid()
      ensures message == "" && !hasStartedTyping && changes == []
    {
      message := "";
      hasStartedTyping := false;
      changes := [];
      fired := 0;
    }

    /** A change of the input: the draft becomes the new value, and the
        first non-empty value fires the first-keystroke callback. */
    method HandleChange(newValue: string) returns (fire: bool)
      requires Valid()
      modifies this
      ensures Valid()
      ensures message == newValue
      ensures changes == old(changes) + [newValue]
      ensures fire <==> !old(hasStartedTyping) && newValue != ""
      ensures hasStartedTyping == (old(hasStartedTyping) || newValue != "")
    {
      message := newValue;
      fire := false;
      ghost var prefix := changes;
      changes := changes + [newValue];
      assert changes[..|changes| - 1] == prefix;
      if !hasStartedTyping && |newValue| > 0 {
        hasStartedTyping := true;
        fire := true;
      }
      if fire {
        fired := fired + 1;
      }
      StartedSnoc(prefix, newValue);
    }

    /** A submit: the trimmed draft is sent, and the draft cleared, only when
        it is not empty and the input is not disabled; otherwise nothing
        happens. */
    method HandleSubmit(disabled: bool) returns (sent: Option<string>)
      requires Valid()
      modifies this
      ensures Valid()
      ensures sent.Some? <==> Trim(old(message)) != "" && !disabled
      ensures sent.Some? ==> sent.value == Trim(old(message)) && message == ""
      ensures sent.None? ==> message == old(message)
      ensures hasStartedTyping == old(hasStartedTyping) && changes == old(changes) && fired == old(fired)
    {
      var trimmed := Trim(message);
      if trimmed != "" && !disabled {
        sent := Some(trimmed);
        message := "";
      } else {
        sent := None;
      }
    }

    /** A key press: Enter without Shift is taken over and submits; Enter
        with Shift, like any other key, is left to the text area. */
    method HandleKeyDown(key: string, shift: bool, disabled: bool) returns (sent: Option<string>, handled: bool)
      requires Valid()
      modifies this
      ensures Valid()
      ensures handled <==> key == "Enter" && !shift
      ensures !handled ==> sent.None?
      ensures handled ==> (sent.Some? <==> Trim(old(message)) != "" && !disabled)
      ensures handled && sent.Some? ==> sent.value == Trim(old(message)) && message == ""
      ensures sent.None? ==> message == old(message)
      ensures hasStartedTyping == old(hasStartedTyping) && changes == old(changes) && fired == old(fired)
    {
      if key == "Enter" && !shift {
        handled := true;
        sent := HandleSubmit(disabled);
      } else {
        handled := false;
        sent := None;
      }
    }
  }

  /** What a submit sends is never empty and has no surrounding white space. */
  lemma SentTextIsTrimmed(draft: string)
    requires Trim(draft) != ""
    ensures !IsTrimmable(Trim(draft)[0]) && !IsTrimmable(Trim(draft)[|Trim(draft)| - 1])
    ensures exists i, j :: 0 <= i <= j <= |draft| && Trim(draft) == draft[i..j]
  {
    TrimIsInnerSlice(draft);
    TrimmedEnds(draft);
  }
}
