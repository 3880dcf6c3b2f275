/**
 * The message composer of src/components/ChatInput.tsx: the text being typed
 * and the height of the input box, the guard that decides whether a send is
 * dispatched, and the reset and restore around it.
 */
module ChatInput {
  import opened Wrappers
  import opened MessageTypes
  import ChatApp

  const MaxLength: nat := 1000
  const MinInputHeight: real := 40.0
  const MaxInputHeight: real := 120.0

  /** The characters JavaScript's `String.prototype.trim` removes: white space and line terminators. */
  const JsWhitespace: set<char> := {
    '\t', '\n', '\U{B}', '\U{C}', '\r', ' ', '\U{A0}', '\U{1680}',
    '\U{2000}', '\U{2001}', '\U{2002}', '\U{2003}', '\U{2004}', '\U{2005}',
    '\U{2006}', '\U{2007}', '\U{2008}', '\U{2009}', '\U{200A}',
    '\U{2028}', '\U{2029}', '\U{202F}', '\U{205F}', '\U{3000}', '\U{FEFF}'
  }

  predicate IsJsWhitespace(c: char) {
    c in JsWhitespace
  }

  predicate AllWhitespace(s: string) {
    forall i :: 0 <= i < |s| ==> IsJsWhitespace(s[i])
  }

  /** Drops the leading white space: the result is a suffix of `s`. */
  function TrimStart(s: string): (r: string)
    ensures |r| <= |s| && r == s[|s| - |r|..]
    ensures AllWhitespace(s[..|s| - |r|])
    ensures r != [] ==> !IsJsWhitespace(r[0])
  {
    if s != [] && IsJsWhitespace(s[0]) then
      var r := TrimStart(s[1..]);
      assert s[..|s| - |r|] == [s[0]] + s[1..][..|s| - 1 - |r|];
      r
    else s
  }

  /** Drops the trailing white space: the result is a prefix of `s`. */
  function TrimEnd(s: string): (r: string)
    ensures |r| <= |s| && r == s[..|r|]
    ensures AllWhitespace(s[|r|..])
    ensures r != [] ==> !IsJsWhitespace(r[|r| - 1])
  {
    if s != [] && IsJsWhitespace(s[|s| - 1]) then
      var r := TrimEnd(s[..|s| - 1]);
      assert s[|r|..] == s[..|s| - 1][|r|..] + [s[|s| - 1]];
      r
    else s
  }

  /**
   * `r` is `s` with `lo` white-space characters removed in front and all
   * the white space removed behind, and starts and ends with a character
   * that is not white space.
   */
  predicate TrimmedAt(s: string, r: string, lo: nat) {
    && lo + |r| <= |s| && r == s[lo..lo + |r|]
    && AllWhitespace(s[..lo]) && AllWhitespace(s[lo + |r|..])
    && (r != [] ==> !IsJsWhitespace(r[0]) && !IsJsWhitespace(r[|r| - 1]))
  }

  /** `s.trim()`. */
  function Trim(s: string): (t: string)
    ensures |t| <= |s|
    ensures t != [] ==> !IsJsWhitespace(t[0]) && !IsJsWhitespace(t[|t| - 1])
  {
    TrimEnd(TrimStart(s))
  }

  /**
   * Dropping white space in front (`s` to `t`) and then behind (`t` to `r`)
   * gives the trimmed form of `s`.
   */
  lemma TrimmedFromParts(s: string, t: string, r: string)
    requires |t| <= |s| && t == s[|s| - |t|..] && AllWhitespace(s[..|s| - |t|])
    requires t != [] ==> !IsJsWhitespace(t[0])
    requires |r| <= |t| && r == t[..|r|] && AllWhitespace(t[|r|..])
    requires r != [] ==> !IsJsWhitespace(r[|r| - 1])
    ensures TrimmedAt(s, r, |s| - |t|)
  {
    var lo := |s| - |t|;
    assert r == s[lo..lo + |r|];
    assert s[lo + |r|..] == t[|r|..];
    assert r != [] ==> r[0] == t[0];
  }

  /** Trimming removes exactly the white space at both ends. */
  lemma TrimCharacterized(s: string)
    ensures TrimmedAt(s, Trim(s), |s| - |TrimStart(s)|)
  {
    TrimmedFromParts(s, TrimStart(s), Trim(s));
  }

  /** Trimming leaves nothing exactly when there is nothing but white space. */
  lemma TrimEmptyIff(s: string)
    ensures Trim(s) == [] <==> AllWhitespace(s)
  {
    TrimCharacterized(s);
    var r := Trim(s);
    var lo := |s| - |TrimStart(s)|;
    if r == [] {
      assert lo == |s|;
      assert s[..lo] == s;
    } else {
      assert s[lo] == r[0];
    }
  }

  /** Only one string can be the trimmed form of `s`. */
  lemma TrimmedUnique(s: string, r1: string, lo1: nat, r2: string, lo2: nat)
    requires TrimmedAt(s, r1, lo1) && TrimmedAt(s, r2, lo2)
    ensures r1 == r2
  {
  }

  /** Trimming twice is trimming once. */
  lemma TrimIdempotent(s: string)
    ensures Trim(Trim(s)) == Trim(s)
  {
    var r := Trim(s);
    TrimCharacterized(s);
    TrimCharacterized(r);
    assert TrimmedAt(r, r, 0) by {
      assert r[..0] == [] && r[|r|..] == [];
    }
    TrimmedUnique(r, Trim(r), |r| - |TrimStart(r)|, r, 0);
  }

  /**
   * The send button is disabled, and `handleSend` returns early, when the
   * trimmed text is empty or a reply is loading.
   */
  function SendButtonDisabled(inputText: string, isLoading: bool): (disabled: bool)
    ensures disabled <==> AllWhitespace(inputText) || isLoading
  {
    TrimEmptyIff(inputText);
    Trim(inputText) == "" || isLoading
  }

  /** Enter without Shift sends; every other key press does nothing. */
  function KeyTriggersSend(key: string, shiftKey: bool): (sends: bool)
    ensures shiftKey ==> !sends
    ensures key != "Enter" ==> !sends
    ensures key == "Enter" && !shiftKey ==> sends
  {
    key == "Enter" && !shiftKey
  }

  /** `Math.max(40, Math.min(height, 120))`. */
  function ClampHeight(height: real): (h: real)
    ensures MinInputHeight <= h <= MaxInputHeight
    ensures height < MinInputHeight ==> h == MinInputHeight
    ensures height > MaxInputHeight ==> h == MaxInputHeight
    ensures MinInputHeight <= height <= MaxInputHeight ==> h == height
  {
    var capped := if height < MaxInputHeight then height else MaxInputHeight;
    if MinInputHeight > capped then MinInputHeight else capped
  }

  /** The counter appears past 80% of the limit. */
  function IsNearLimit(inputText: string): (near: bool)
    ensures near <==> |inputText| > 800
  {
    |inputText| as real > MaxLength as real * 0.8
  }

  /** The `length/1000` counter, shown only near the limit. */
  function CharacterCounter(inputText: string): (counter: Option<string>)
    ensures counter.Some? <==> |inputText| > 800
    ensures counter.Some? ==> counter.value == DecimalString(|inputText|) + "/" + DecimalString(MaxLength)
  {
    if IsNearLimit(inputText) then Some(DecimalString(|inputText|) + "/" + DecimalString(MaxLength)) else None
  }

  class InputBox {
    var inputText: string
    var inputHeight: real

    constructor ()
      ensures inputText == "" && inputHeight == MinInputHeight
    {
      inputText := "";
      inputHeight := MinInputHeight;
    }

    /** `onChangeText`: the text input reports the new text. */
    method ChangeText(text: string)
      modifies this
      ensures inputText == text && inputHeight == old(inputHeight)
    {
      inputText := text;
    }

    /**
     * `handleSend`. When not blocked, the trimmed text is dispatched, the
     * box is emptied and shrunk to 40; if `onSendMessage` rejects, the
     * trimmed text comes back.
     */
    method HandleSend(isLoading: bool, sendRejected: bool) returns (dispatched: Option<string>)
      modifies this
      ensures SendButtonDisabled(old(inputText), isLoading) ==>
        dispatched == None && inputText == old(inputText) && inputHeight == old(inputHeight)
      ensures !SendButtonDisabled(old(inputText), isLoading) ==>
        && dispatched == Some(Trim(old(inputText)))
        && inputText == (if sendRejected then Trim(old(inputText)) else "")
        && inputHeight == MinInputHeight
      ensures dispatched.Some? ==> dispatched.value != "" && !IsJsWhitespace(dispatched.value[0])
    {
      var text := Trim(inputText);
      if text == "" || isLoading {
        return None;
      }
      var currentText := text;
      inputText := "";
      inputHeight := MinInputHeight;
      dispatched := Some(currentText);
      if sendRejected {
        inputText := currentText;
      }
    }

    /** `handleKeyPress`: Enter without Shift runs `handleSend`; anything else changes nothing. */
    method HandleKeyPress(key: string, shiftKey: bool, isLoading: bool, sendRejected: bool)
      returns (dispatched: Option<string>)
      modifies this
      ensures !KeyTriggersSend(key, shiftKey) ==>
        dispatched == None && inputText == old(inputText) && inputHeight == old(inputHeight)
      ensures KeyTriggersSend(key, shiftKey) && !SendButtonDisabled(old(inputText), isLoading) ==>
        && dispatched == Some(Trim(old(inputText)))
        && inputText == (if sendRejected then Trim(old(inputText)) else "")
        && inputHeight == MinInputHeight
      ensures SendButtonDisabled(old(inputText), isLoading) ==>
        dispatched == None && inputText == old(inputText) && inputHeight == old(inputHeight)
    {
      dispatched := None;
      if KeyTriggersSend(key, shiftKey) {
        dispatched := HandleSend(isLoading, sendRejected);
      }
    }

    /** `handleContentSizeChange`: the box follows its content between 40 and 120. */
    method HandleContentSizeChange(height: real)
      modifies this
      ensures inputHeight == ClampHeight(height) && inputText == old(inputText)
    {
      inputHeight := ClampHeight(height);
    }
  }

  /**
   * The composer wired to the engine: the guard reads the engine's
   * `isLoading`, and the dispatched text goes to `SendMessage`, which never
   * rejects, so the restore path is not taken.
   */
  method SubmitInput(input: InputBox, engine: ChatApp.ChatEngine, clockMs: nat, createdAt: nat, writeOk: bool)
    returns (pending: Option<ChatApp.PendingReply>)
    modifies input, engine, engine.store
    ensures SendButtonDisabled(old(input.inputText), old(engine.isLoading)) ==>
      && pending == None
      && input.inputText == old(input.inputText) && input.inputHeight == old(input.inputHeight)
      && engine.messages == old(engine.messages) && engine.isLoading == old(engine.isLoading)
      && engine.error == old(engine.error) && engine.isTyping == old(engine.isTyping)
      && engine.store.record == old(engine.store.record)
    ensures !SendButtonDisabled(old(input.inputText), old(engine.isLoading)) ==>
      && input.inputText == "" && input.inputHeight == MinInputHeight
      && engine.isLoading && engine.error == None && engine.isTyping
      && engine.store.record == (if writeOk then Some(engine.messages) else old(engine.store.record))
      && engine.messages == old(engine.messages) + [ChatApp.UserMessage(Trim(old(input.inputText)), clockMs, createdAt)]
      && pending == Some(ChatApp.PendingReply(engine.messages, Trim(old(input.inputText))))
  {
    pending := None;
    var dispatched := input.HandleSend(engine.isLoading, false);
    if dispatched.Some? {
      var p := engine.SendMessage(dispatched.value, clockMs, createdAt, writeOk);
      pending := Some(p);
    }
  }
}
