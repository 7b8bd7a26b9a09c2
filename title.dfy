/**
 * The default clip title: the chosen file's name with its extension removed,
 * as `name.replace(/\.[^/.]+$/, '')` does it. The pattern matches a '.'
 * followed by one or more characters that are neither '/' nor '.', up to the
 * end of the name; the replacement (not global) removes that match if there
 * is one and otherwise leaves the name alone.
 */
module Title {
  import opened Wrappers

  /** The characters the class `[^/.]` accepts. */
  predicate IsExtensionChar(c: char) {
    c != '/' && c != '.'
  }

  /** The pattern `\.[^/.]+$` matches `s` starting at index `i`. */
  predicate ExtensionAt(s: string, i: int) {
    0 <= i < |s| - 1 && s[i] == '.' &&
    forall k :: i < k < |s| ==> IsExtensionChar(s[k])
  }

  /** Length of the longest suffix of `s` made only of extension characters. */
  function TrailingRun(s: string): (n: nat)
    ensures n <= |s|
    ensures forall k :: |s| - n <= k < |s| ==> IsExtensionChar(s[k])
    ensures n < |s| ==> !IsExtensionChar(s[|s| - 1 - n])
  {
    if s == [] || !IsExtensionChar(s[|s| - 1]) then 0
    else 1 + TrailingRun(s[..|s| - 1])
  }

  /** Where the pattern matches, if it matches at all. */
  function ExtensionStart(s: string): (r: Option<nat>)
    ensures r.Some? ==> ExtensionAt(s, r.value)
    ensures r.None? ==> forall i :: !ExtensionAt(s, i)
  {
    var n := TrailingRun(s);
    if 0 < n < |s| && s[|s| - 1 - n] == '.' then Some(|s| - 1 - n)
    else
      assert forall i :: !ExtensionAt(s, i) by {
        forall i | ExtensionAt(s, i) ensures false {
          RunCoversMatch(s, i);
        }
      }
      None
  }

  /** A match at `i` is exactly the '.' that ends the trailing run. */
  lemma RunCoversMatch(s: string, i: int)
    requires ExtensionAt(s, i)
    ensures TrailingRun(s) == |s| - 1 - i
  {
    var n := TrailingRun(s);
    assert !IsExtensionChar(s[i]);
  }

  /**
   * The default title for a file name: `r` is a prefix of `name`; it is the
   * whole name exactly when the pattern has no match, and otherwise the
   * pattern matches right where `r` ends.
   */
  function StripExtension(name: string): (r: string)
    ensures r <= name
    ensures r == name <==> forall i :: !ExtensionAt(name, i)
    ensures r != name ==> ExtensionAt(name, |r|)
  {
    match ExtensionStart(name)
    case Some(i) => name[..i]
    case None => name
  }

  /** The pattern matches at most once: at the '.' that starts the last segment. */
  lemma MatchIsUnique(s: string, i: int)
    ensures ExtensionAt(s, i) <==> ExtensionStart(s) == Some(i)
  {
  }

  /** Removing an appended extension gives back the base name, whatever it holds. */
  lemma {:induction false} StripAppendedExtension(base: string, ext: string)
    requires |ext| > 0
    requires forall k :: 0 <= k < |ext| ==> IsExtensionChar(ext[k])
    ensures StripExtension(base + "." + ext) == base
  {
    var s := base + "." + ext;
    assert s[|base|] == '.';
    forall k | |base| < k < |s| ensures IsExtensionChar(s[k]) {
      assert s[k] == ext[k - |base| - 1];
    }
    assert ExtensionAt(s, |base|);
    MatchIsUnique(s, |base|);
    assert s[..|base|] == base;
  }

  /** For any `x`, the title derived from `x + ".mp4"` is `x`. */
  lemma Mp4Title(x: string)
    ensures StripExtension(x + ".mp4") == x
  {
    assert x + ".mp4" == x + "." + "mp4";
    StripAppendedExtension(x, "mp4");
  }

  /** A name without any '.' is its own title. */
  lemma NoDotKeepsName(s: string)
    requires forall k :: 0 <= k < |s| ==> s[k] != '.'
    ensures StripExtension(s) == s
  {
  }

  /** A name ending in '.' is its own title: the pattern needs a character after the '.'. */
  lemma TrailingDotKeepsName(s: string)
    requires |s| > 0 && s[|s| - 1] == '.'
    ensures StripExtension(s) == s
  {
  }

  /**
   * A name where a '/' follows its last '.' is its own title: what follows
   * the last '.' is not an extension.
   */
  lemma SlashAfterLastDotKeepsName(s: string, dot: int, slash: int)
    requires 0 <= dot < slash < |s|
    requires s[dot] == '.' && s[slash] == '/'
    requires forall k :: dot < k < |s| ==> s[k] != '.'
    ensures StripExtension(s) == s
  {
  }
}
