/** The keyboard surface of the editor: how a keydown's `key` string is
    classified, and which strings are letters a sample may carry. */
module Keys {

  /** Upper-casing of one character, for the ASCII range. */
  function UpperChar(c: char): char {
    if 'a' <= c <= 'z' then (c as int - 32) as char else c
  }

  /** The capital letters in alphabetical order. */
  const Capitals: string := "ABCDEFGHIJKLMNOPQRSTUVWXYZ"

  /** The key string upper-cased character by character: each lowercase
      ASCII letter becomes the capital at the same place in the alphabet. */
  function ToUpper(key: string): (u: string)
    ensures |u| == |key|
    ensures forall i | 0 <= i < |u| && 'a' <= key[i] <= 'z' :: u[i] == Capitals[key[i] as int - 'a' as int]
    ensures forall i | 0 <= i < |u| :: !('a' <= u[i] <= 'z')
    ensures forall i | 0 <= i < |u| :: !('a' <= key[i] <= 'z') ==> u[i] == key[i]
    ensures forall i | 0 <= i < |u| :: IsAsciiLetter(u[i]) <==> IsAsciiLetter(key[i])
  {
    seq(|key|, i requires 0 <= i < |key| => UpperChar(key[i]))
  }

  /** The keydown handler's letter test: the key is upper-cased, and the
      result must be exactly one character between "A" and "Z". It accepts
      exactly the one-character keys that are ASCII letters of either case. */
  predicate PassesLetterTest(key: string)
    ensures PassesLetterTest(key) <==> |key| == 1 && IsAsciiLetter(key[0])
  {
    var upper := ToUpper(key);
    |upper| == 1 && 'A' <= upper[0] <= 'Z'
  }

  predicate IsAsciiLetter(c: char) {
    'a' <= c <= 'z' || 'A' <= c <= 'Z'
  }

  /** What a sample's letter display may hold: nothing, or one uppercase letter. */
  predicate IsLabel(s: string) {
    s == "" || (|s| == 1 && 'A' <= s[0] <= 'Z')
  }

  /** What a key press does to the selected sample. */
  datatype KeyEffect =
    | Deselect                 // drop the selection
    | ClearLetter              // blank the selected sample's letter
    | SetLetter(letter: char)  // give the selected sample this uppercase letter
    | Ignore                   // nothing

  /** The meaning of each key, stated directly: Escape deselects, Backspace
      and Delete clear, a single letter of either case sets its uppercase
      form, and every other key (digits, punctuation, "Enter", arrow keys)
      is ignored. */
  function Classify(key: string): (e: KeyEffect)
    ensures e.SetLetter? ==> 'A' <= e.letter <= 'Z'
    ensures e.SetLetter? ==> IsLabel([e.letter])
  {
    if key == "Escape" then Deselect
    else if key == "Backspace" || key == "Delete" then ClearLetter
    else if |key| == 1 && IsAsciiLetter(key[0]) then SetLetter(UpperChar(key[0]))
    else Ignore
  }

  /** The handler's letter test accepts exactly the keys Classify calls
      letters, and the upper-cased key it hands over is that same letter. */
  lemma LetterTestMatchesClassify(key: string)
    ensures PassesLetterTest(key) <==> Classify(key).SetLetter?
    ensures Classify(key).SetLetter? ==> ToUpper(key) == [Classify(key).letter]
  {
  }

  /** The named keys the handler checks first fail the letter test, so
      Backspace and Delete, which fall through to it, assign nothing more. */
  lemma NamedKeysFailLetterTest()
    ensures !PassesLetterTest("Escape")
    ensures !PassesLetterTest("Backspace")
    ensures !PassesLetterTest("Delete")
  {
  }

  /** Single characters that are not letters, and multi-character key names
      other than Escape, Backspace and Delete, are ignored; in particular the
      arrow keys do not move the selection. */
  lemma OtherKeysIgnored(key: string)
    requires key != "Escape" && key != "Backspace" && key != "Delete"
    requires |key| != 1 || !IsAsciiLetter(key[0])
    ensures Classify(key) == Ignore
    ensures !PassesLetterTest(key)
  {
  }
}
