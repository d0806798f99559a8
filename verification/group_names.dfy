/** Group-name sanitising: `Ec2Inventory.to_safe`, which replaces every character
    outside `[A-Za-z0-9-]` by an underscore (playbooks/ec2.py:601-605). */
module GroupNames {

  /** A character `to_safe` keeps as it is. */
  predicate IsSafeChar(c: char)
  {
    ('A' <= c <= 'Z') || ('a' <= c <= 'z') || ('0' <= c <= '9') || c == '-'
  }

  /** The image of one character under `to_safe`. */
  function SafeChar(c: char): char
  {
    if IsSafeChar(c) then c else '_'
  }

  /** A string over the alphabet `[A-Za-z0-9_-]`. */
  predicate IsGroupName(s: string)
  {
    forall i :: 0 <= i < |s| ==> IsSafeChar(s[i]) || s[i] == '_'
  }

  /** `to_safe(word)`: the regular-expression substitution `[^A-Za-z0-9\-]` -> `_`,
      applied to every character of `word`. */
  function ToSafe(word: string): (r: string)
    ensures |r| == |word|
    ensures forall i :: 0 <= i < |word| ==> r[i] == SafeChar(word[i])
    decreases |word|
  {
    if |word| == 0 then "" else [SafeChar(word[0])] + ToSafe(word[1..])
  }

  /** Every character of a sanitised name is in `[A-Za-z0-9_-]`. */
  lemma ToSafeAlphabet(word: string)
    ensures IsGroupName(ToSafe(word))
  {
  }

  /** `to_safe` leaves a string unchanged exactly when it is already over `[A-Za-z0-9_-]`. */
  lemma ToSafeFixedPoints(word: string)
    ensures ToSafe(word) == word <==> IsGroupName(word)
  {
    if IsGroupName(word) {
      assert forall i :: 0 <= i < |word| ==> ToSafe(word)[i] == word[i];
    }
  }

  /** Sanitising twice is sanitising once. */
  lemma ToSafeIdempotent(word: string)
    ensures ToSafe(ToSafe(word)) == ToSafe(word)
  {
    ToSafeAlphabet(word);
    ToSafeFixedPoints(ToSafe(word));
  }

  /** `to_safe` works character by character, so it distributes over concatenation. */
  lemma ToSafeConcat(a: string, b: string)
    ensures ToSafe(a + b) == ToSafe(a) + ToSafe(b)
  {
    assert forall i :: 0 <= i < |a + b| ==> ToSafe(a + b)[i] == (ToSafe(a) + ToSafe(b))[i];
  }

  /** A prefix already over `[A-Za-z0-9_-]`, such as `tag_` or `ec2_`, survives sanitising. */
  lemma ToSafePrefix(prefix: string, rest: string)
    requires IsGroupName(prefix)
    ensures ToSafe(prefix + rest) == prefix + ToSafe(rest)
  {
    ToSafeConcat(prefix, rest);
    ToSafeFixedPoints(prefix);
  }
}
