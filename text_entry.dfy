/** The editing rule shared by the three text boxes of the dashboard (map search bar, chat
    input, password prompt): Enter is handled by each box itself, Backspace removes the last
    character when there is one, any other code below 128 is appended, the rest are dropped. */
module TextEntry {

  const EnterKey: nat := 13
  const BackspaceKey: nat := 8

  /** Codes that a text box appends to its contents. */
  predicate Appends(code: nat) {
    code < 128 && code != EnterKey && code != BackspaceKey
  }

  /** The text after one TextEntered event other than Enter. */
  function Edit(text: string, code: nat): (r: string)
    requires code != EnterKey
    ensures code == BackspaceKey && |text| == 0 ==> r == text
    ensures code == BackspaceKey && |text| > 0 ==> |r| == |text| - 1 && r < text
    ensures Appends(code) ==> |r| == |text| + 1 && r[..|text|] == text && r[|text|] as nat == code
    ensures code >= 128 ==> r == text
  {
    if code == BackspaceKey then
      if |text| == 0 then text else text[..|text| - 1]
    else if code < 128 then
      text + [code as char]
    else
      text
  }

  /** Backspace undoes the append of any appended code. */
  lemma BackspaceUndoesAppend(text: string, code: nat)
    requires Appends(code)
    ensures Edit(Edit(text, code), BackspaceKey) == text
  {
    assert Edit(text, code)[..|text|] == text;
  }

  /** The text after a run of non-Enter events, in order. */
  function Typed(text: string, codes: seq<nat>): string
    requires forall i :: 0 <= i < |codes| ==> codes[i] != EnterKey
    decreases |codes|
  {
    if |codes| == 0 then text else Typed(Edit(text, codes[0]), codes[1..])
  }

  /** The characters of a run of codes below 128. */
  function Chars(codes: seq<nat>): string
    requires forall i :: 0 <= i < |codes| ==> codes[i] < 128
    decreases |codes|
  {
    if |codes| == 0 then [] else [codes[0] as char] + Chars(codes[1..])
  }

  /** Typing only appending codes appends exactly their characters, in order. */
  lemma {:induction false} TypedAppendsAll(text: string, codes: seq<nat>)
    requires forall i :: 0 <= i < |codes| ==> codes[i] < 128 && codes[i] != EnterKey && codes[i] != BackspaceKey
    ensures Typed(text, codes) == text + Chars(codes)
    decreases |codes|
  {
    if |codes| > 0 {
      TypedAppendsAll(Edit(text, codes[0]), codes[1..]);
      assert text + [codes[0] as char] + Chars(codes[1..]) == text + Chars(codes);
    }
  }

  /** n Backspaces keep the first |text| - n characters and never fail on an empty box. */
  lemma {:induction false} BackspacesErase(text: string, n: nat)
    ensures Typed(text, seq(n, _ => BackspaceKey)) == text[..if n <= |text| then |text| - n else 0]
    decreases n
  {
    var codes := seq(n, _ => BackspaceKey);
    if n > 0 {
      assert codes[1..] == seq(n - 1, _ => BackspaceKey);
      BackspacesErase(Edit(text, BackspaceKey), n - 1);
    }
  }
}
