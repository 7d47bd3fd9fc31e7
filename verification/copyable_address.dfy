/**
 * The copyable-address widget: the text it displays and the copy button's
 * state machine (idle, copying, success, error), with the clipboard's answer
 * and the reset timers turned into explicit inputs and events.
 */
module CopyableAddress {
  import opened Web3

  datatype CopyState = Idle | Copying | Success | CopyError

  /** The address as displayed: shortened by default, whole when `truncate` is off. */
  function DisplayAddress(address: string, truncate: bool): (r: string)
    ensures truncate ==> r == FormatAddress(address)
    ensures !truncate ==> r == address
  {
    if truncate then FormatAddress(address) else address
  }

  /** `label || fallback`: a missing or empty `label` prop falls back. */
  function LabelOr(caption: string, fallback: string): (r: string)
    ensures caption != [] ==> r == caption
    ensures caption == [] ==> r == fallback
  {
    if caption != [] then caption else fallback
  }

  /** `getCopyButtonTitle`, also the button's accessible name. */
  function Title(state: CopyState, caption: string): (r: string)
    ensures state == Copying ==> r == "Copying..."
    ensures state == Success ==> r == "Copied!"
    ensures state == CopyError ==> r == "Failed to copy"
    ensures state == Idle ==> r == "Copy " + LabelOr(caption, "address")
  {
    match state
    case Copying => "Copying..."
    case Success => "Copied!"
    case CopyError => "Failed to copy"
    case Idle => "Copy " + LabelOr(caption, "address")
  }

  /**
   * Three characters of a title pin its state down: an error title starts
   * with `F`, a success title has `i` at position 3, an idle title a space at
   * position 4.
   */
  lemma TitleSignature(state: CopyState, caption: string)
    ensures |Title(state, caption)| >= 5
    ensures Title(state, caption)[0] == 'F' <==> state == CopyError
    ensures Title(state, caption)[3] == 'i' <==> state == Success
    ensures Title(state, caption)[4] == ' ' <==> state == Idle
  {
  }

  /** Whatever the `label` prop, the title tells the four states apart. */
  lemma TitleIdentifiesState(s1: CopyState, s2: CopyState, caption: string)
    ensures Title(s1, caption) == Title(s2, caption) <==> s1 == s2
  {
    TitleSignature(s1, caption);
    TitleSignature(s2, caption);
  }

  /** `getCopyButtonVariant`: only success and error have a variant of their own. */
  function Variant(state: CopyState): (r: string)
    ensures r == "success" <==> state == Success
    ensures r == "destructive" <==> state == CopyError
    ensures r == "ghost" <==> state == Idle || state == Copying
  {
    match state
    case Success => "success"
    case CopyError => "destructive"
    case _ => "ghost"
  }

  /**
   * The button is disabled exactly while a copy is in flight, and then keeps
   * the neutral variant.
   */
  function Disabled(state: CopyState): (r: bool)
    ensures r <==> state == Copying
    ensures r ==> Variant(state) == "ghost"
  {
    state == Copying
  }

  /** The screen-reader announcement for a state. */
  function Announcement(state: CopyState, caption: string): (r: string)
    ensures state == Success ==> r == LabelOr(caption, "Address") + " copied to clipboard"
    ensures state == CopyError ==> r == "Failed to copy " + LabelOr(caption, "address")
    ensures state == Idle || state == Copying ==> r == []
  {
    match state
    case Success => LabelOr(caption, "Address") + " copied to clipboard"
    case CopyError => "Failed to copy " + LabelOr(caption, "address")
    case _ => []
  }

  /** The rendering facts the component's tests check. */
  lemma RenderingExamples()
    ensures DisplayAddress("0x1234567890abcdef1234567890abcdef12345678", true) == "0x1234...5678"
    ensures DisplayAddress("0x1234567890abcdef1234567890abcdef12345678", false)
      == "0x1234567890abcdef1234567890abcdef12345678"
    ensures Title(Idle, "wallet address") == "Copy wallet address"
    ensures Title(Idle, "") == "Copy address"
  {
    FormatAddressExample();
  }

  /** One widget instance: its props and its copy state, with what it sent out. */
  class CopyButton {
    const address: string
    const truncate: bool
    const caption: string
    /** Whether the optional `onCopy` prop was given. */
    const hasOnCopy: bool
    var state: CopyState
    /** Every state the button has passed through, the initial idle state first. */
    var history: seq<CopyState>
    /** The strings written to the clipboard, one per copy attempt. */
    var clipboardWrites: seq<string>
    /** The arguments of the `onCopy` calls made so far. */
    var copiedCallbacks: seq<string>

    /**
     * Between events no copy is in flight; the history ends in the current
     * state; every clipboard write and every `onCopy` call carries the full
     * address; `onCopy` is called at most once per write, and never when
     * the prop is absent.
     */
    ghost predicate Valid()
      reads this
    {
      && state != Copying
      && |history| > 0 && history[|history| - 1] == state
      && (forall i :: 0 <= i < |clipboardWrites| ==> clipboardWrites[i] == address)
      && (forall i :: 0 <= i < |copiedCallbacks| ==> copiedCallbacks[i] == address)
      && |copiedCallbacks| <= |clipboardWrites|
      && (!hasOnCopy ==> copiedCallbacks == [])
    }

    constructor (address: string, truncate: bool, caption: string, hasOnCopy: bool)
      ensures Valid()
      ensures this.address == address && this.truncate == truncate && this.caption == caption
      ensures this.hasOnCopy == hasOnCopy
      ensures state == Idle && history == [Idle] && clipboardWrites == [] && copiedCallbacks == []
    {
      this.address := address;
      this.truncate := truncate;
      this.caption := caption;
      this.hasOnCopy := hasOnCopy;
      state := Idle;
      history := [Idle];
      clipboardWrites := [];
      copiedCallbacks := [];
    }

    /**
     * `copyToClipboard`, with `writeDidNotThrow` telling whether the clipboard
     * write ran without throwing (an `execCommand('copy')` fallback that
     * returns false still counts as not throwing, since its result is
     * ignored), and `onCopyThrew` whether the `onCopy` callback, which runs
     * inside the same `try`, threw. Nothing happens for an empty address.
     * Otherwise the button passes through copying; after a write that did
     * not throw, `onCopy` (when given) is called with the full address, and
     * the button ends in success unless that call threw, in which case it
     * ends in error like a failed write.
     */
    method CopyToClipboard(writeDidNotThrow: bool, onCopyThrew: bool)
      requires Valid()
      modifies this
      ensures Valid()
      ensures address == [] ==>
        state == old(state) && history == old(history)
        && clipboardWrites == old(clipboardWrites) && copiedCallbacks == old(copiedCallbacks)
      ensures address != [] ==>
        && state == (if writeDidNotThrow && !(hasOnCopy && onCopyThrew) then Success else CopyError)
        && history == old(history) + [Copying, state]
        && clipboardWrites == old(clipboardWrites) + [address]
        && copiedCallbacks == old(copiedCallbacks) + (if writeDidNotThrow && hasOnCopy then [address] else [])
    {
      if address == [] {
        return;
      }
      state := Copying;
      history := history + [Copying];
      clipboardWrites := clipboardWrites + [address];
      if !writeDidNotThrow {
        state := CopyError;
      } else if !hasOnCopy {
        state := Success;
      } else {
        copiedCallbacks := copiedCallbacks + [address];
        state := if onCopyThrew then CopyError else Success;
      }
      history := history + [state];
    }

    /**
     * `handleKeyDown`: only Enter and Space start a copy, and a copy of an
     * empty address changes nothing.
     */
    method HandleKeyDown(key: string, writeDidNotThrow: bool, onCopyThrew: bool)
      requires Valid()
      modifies this
      ensures Valid()
      ensures (key != "Enter" && key != " ") || address == [] ==>
        state == old(state) && history == old(history)
        && clipboardWrites == old(clipboardWrites) && copiedCallbacks == old(copiedCallbacks)
      ensures (key == "Enter" || key == " ") && address != [] ==>
        && state == (if writeDidNotThrow && !(hasOnCopy && onCopyThrew) then Success else CopyError)
        && history == old(history) + [Copying, state]
        && clipboardWrites == old(clipboardWrites) + [address]
        && copiedCallbacks == old(copiedCallbacks) + (if writeDidNotThrow && hasOnCopy then [address] else [])
    {
      if key == "Enter" || key == " " {
        CopyToClipboard(writeDidNotThrow, onCopyThrew);
      }
    }

    /** One of the reset timers (two seconds after success, three after an error) fires. */
    method ResetTimerFired()
      requires Valid()
      modifies this
      ensures Valid()
      ensures state == Idle && history == old(history) + [Idle]
      ensures clipboardWrites == old(clipboardWrites) && copiedCallbacks == old(copiedCallbacks)
    {
      state := Idle;
      history := history + [Idle];
    }

    function DisplayedText(): (r: string)
      reads this
      ensures r == DisplayAddress(address, truncate)
    {
      DisplayAddress(address, truncate)
    }

    function ButtonTitle(): (r: string)
      reads this
      ensures r == Title(state, caption)
    {
      Title(state, caption)
    }
  }

  /**
   * The component tests as a sequence of events on one button with an
   * `onCopy` prop: a successful click writes the full address, shows
   * "Copied!" and calls `onCopy` with it; a failing click shows "Failed to
   * copy" without calling `onCopy`; a key other than Enter or Space writes
   * nothing and Enter copies; a button for an empty address never writes.
   * Two further events cover the callback: without the prop a successful
   * copy calls nothing, and an `onCopy` that throws leaves the button in
   * error after the call.
   */
  method CopyScenarios() returns (afterSuccess: string, afterFailure: string,
                                  writes: seq<string>, callbacks: seq<string>, emptyWrites: seq<string>,
                                  withoutPropTitle: string, withoutPropCallbacks: seq<string>,
                                  throwingTitle: string, throwingCallbacks: seq<string>)
    ensures afterSuccess == "Copied!" && afterFailure == "Failed to copy"
    ensures writes == ["0x1234567890abcdef1234567890abcdef12345678",
                       "0x1234567890abcdef1234567890abcdef12345678",
                       "0x1234567890abcdef1234567890abcdef12345678"]
    ensures callbacks == ["0x1234567890abcdef1234567890abcdef12345678",
                          "0x1234567890abcdef1234567890abcdef12345678"]
    ensures emptyWrites == []
    ensures withoutPropTitle == "Copied!" && withoutPropCallbacks == []
    ensures throwingTitle == "Failed to copy"
    ensures throwingCallbacks == ["0x1234567890abcdef1234567890abcdef12345678"]
  {
    var a := "0x1234567890abcdef1234567890abcdef12345678";
    var b := new CopyButton(a, true, "", true);
    RenderingExamples();
    assert b.DisplayedText() == "0x1234...5678";

    b.CopyToClipboard(true, false);
    afterSuccess := b.ButtonTitle();
    b.ResetTimerFired();

    b.CopyToClipboard(false, false);
    afterFailure := b.ButtonTitle();
    b.ResetTimerFired();

    b.HandleKeyDown("a", true, false);
    b.HandleKeyDown("Enter", true, false);
    writes, callbacks := b.clipboardWrites, b.copiedCallbacks;

    var empty := new CopyButton("", true, "wallet address", true);
    empty.CopyToClipboard(true, false);
    empty.HandleKeyDown("Enter", true, false);
    emptyWrites := empty.clipboardWrites;

    var plain := new CopyButton(a, true, "", false);
    plain.CopyToClipboard(true, true);
    withoutPropTitle, withoutPropCallbacks := plain.ButtonTitle(), plain.copiedCallbacks;

    var throwing := new CopyButton(a, true, "", true);
    throwing.CopyToClipboard(true, true);
    throwingTitle, throwingCallbacks := throwing.ButtonTitle(), throwing.copiedCallbacks;
  }
}
