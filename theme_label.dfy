/** The tooltip label of a colour theme (src/components/controls.tsx:112-114): the
    first '-' of the theme name becomes " & ", then every word character that starts
    a word (the regular expression `\b\w`) is upper-cased. */
module ThemeLabel {
  import opened Common

  /** `\w`: an ASCII letter, digit or underscore. */
  predicate IsWordChar(c: char) {
    'a' <= c <= 'z' || 'A' <= c <= 'Z' || '0' <= c <= '9' || c == '_'
  }

  /** `toUpperCase` on a character `\w` matched: only the lower-case letters change. */
  function ToUpper(c: char): (u: char)
    ensures IsWordChar(u) == IsWordChar(c)
    ensures 'a' <= c <= 'z' ==> 'A' <= u <= 'Z' && u as int == c as int - 32
    ensures !('a' <= c <= 'z') ==> u == c
  {
    if 'a' <= c <= 'z' then (c as int - 32) as char else c
  }

  /** `s.replace("-", " & ")`: a string pattern replaces its first occurrence only. */
  function ReplaceFirstHyphen(s: string): string
    decreases |s|
  {
    if s == [] then []
    else if s[0] == '-' then " & " + s[1..]
    else [s[0]] + ReplaceFirstHyphen(s[1..])
  }

  /** A name without '-' is returned unchanged. */
  lemma {:induction false} ReplaceWithoutHyphen(s: string)
    requires '-' !in s
    ensures ReplaceFirstHyphen(s) == s
    decreases |s|
  {
    if s != [] {
      assert s[0] != '-' && '-' !in s[1..];
      ReplaceWithoutHyphen(s[1..]);
    }
  }

  /** Only the first '-', at `k`, is replaced: the text before and after it is kept,
      later hyphens included. */
  lemma {:induction false} ReplaceAtFirstHyphen(s: string, k: nat)
    requires k < |s| && s[k] == '-' && '-' !in s[..k]
    ensures ReplaceFirstHyphen(s) == s[..k] + " & " + s[k + 1..]
    decreases k
  {
    if k > 0 {
      assert s[0] == s[..k][0];
      assert s[1..][k - 1] == s[k] && s[1..][..k - 1] == s[1..k];
      ReplaceAtFirstHyphen(s[1..], k - 1);
      assert s[..k] == [s[0]] + s[1..k];
    }
  }

  /** The replaced text is two characters longer exactly when there was a '-'. */
  lemma ReplaceLength(s: string)
    ensures |ReplaceFirstHyphen(s)| == if '-' in s then |s| + 2 else |s|
  {
    if '-' in s {
      var k := FirstIndex(s, '-').value;
      ReplaceAtFirstHyphen(s, k);
    } else {
      ReplaceWithoutHyphen(s);
    }
  }

  /** Position `i` starts a word: a word character at the start of the text or right
      after a non-word character (`\b` followed by `\w`). */
  predicate StartsWord(s: string, i: nat)
    requires i < |s|
  {
    IsWordChar(s[i]) && (i == 0 || !IsWordChar(s[i - 1]))
  }

  /** Position `i` of `s` starts a word when `afterWord` says whether the character
      before `s` was a word character. */
  predicate StartsWordAfter(s: string, afterWord: bool, i: nat)
    requires i < |s|
  {
    IsWordChar(s[i]) && (if i == 0 then !afterWord else !IsWordChar(s[i - 1]))
  }

  /** The upper-casing pass over `s`, where `afterWord` says whether the character
      before `s` was a word character. */
  function CapitalizeFrom(s: string, afterWord: bool): string
    decreases |s|
  {
    if s == [] then []
    else [if IsWordChar(s[0]) && !afterWord then ToUpper(s[0]) else s[0]]
           + CapitalizeFrom(s[1..], IsWordChar(s[0]))
  }

  /** The pass upper-cases exactly the characters that start a word and keeps the
      length. */
  lemma {:induction false} CapitalizeFromSpec(s: string, afterWord: bool)
    ensures |CapitalizeFrom(s, afterWord)| == |s|
    ensures forall i :: 0 <= i < |s| ==>
              CapitalizeFrom(s, afterWord)[i] ==
                if StartsWordAfter(s, afterWord, i) then ToUpper(s[i]) else s[i]
    decreases |s|
  {
    if s != [] {
      var rest := CapitalizeFrom(s[1..], IsWordChar(s[0]));
      CapitalizeFromSpec(s[1..], IsWordChar(s[0]));
      var r := CapitalizeFrom(s, afterWord);
      assert forall i :: 1 <= i < |s| ==>
        r[i] == rest[i - 1] && s[1..][i - 1] == s[i] &&
        StartsWordAfter(s, afterWord, i) == StartsWordAfter(s[1..], IsWordChar(s[0]), i - 1);
    }
  }

  /** `s.replace(/\b\w/g, (l) => l.toUpperCase())`: word starts are upper-cased and
      every other character is kept. */
  function CapitalizeWords(s: string): (r: string)
    ensures |r| == |s|
    ensures forall i :: 0 <= i < |s| ==> r[i] == if StartsWord(s, i) then ToUpper(s[i]) else s[i]
  {
    CapitalizeFromSpec(s, false);
    CapitalizeFrom(s, false)
  }

  /** Upper-casing word starts a second time changes nothing. */
  lemma CapitalizeWordsIdempotent(s: string)
    ensures CapitalizeWords(CapitalizeWords(s)) == CapitalizeWords(s)
  {
    var once := CapitalizeWords(s);
    var twice := CapitalizeWords(once);
    forall i | 0 <= i < |s|
      ensures twice[i] == once[i]
    {
      assert IsWordChar(once[i]) == IsWordChar(s[i]);
      if i > 0 {
        assert IsWordChar(once[i - 1]) == IsWordChar(s[i - 1]);
      }
    }
  }

  /** The tooltip text of a theme. */
  function Label(name: string): string {
    CapitalizeWords(ReplaceFirstHyphen(name))
  }

  /** The label is two characters longer than the name exactly when the name has a
      hyphen, and it already is in its capitalised form. */
  lemma LabelShape(name: string)
    ensures |Label(name)| == if '-' in name then |name| + 2 else |name|
    ensures CapitalizeWords(Label(name)) == Label(name)
  {
    ReplaceLength(name);
    CapitalizeWordsIdempotent(ReplaceFirstHyphen(name));
  }

  predicate AllLower(s: string) {
    forall i :: 0 <= i < |s| ==> 'a' <= s[i] <= 'z'
  }

  /** The theme names are two lower-case words joined by one '-': the label is the
      two words, each with an upper-case initial, joined by " & ". */
  lemma TwoWordLabel(a: string, b: string)
    requires |a| > 0 && |b| > 0 && AllLower(a) && AllLower(b)
    ensures Label(a + "-" + b) == [ToUpper(a[0])] + a[1..] + " & " + [ToUpper(b[0])] + b[1..]
  {
    var name := a + "-" + b;
    assert name[|a|] == '-';
    assert '-' !in name[..|a|] by {
      assert name[..|a|] == a;
    }
    ReplaceAtFirstHyphen(name, |a|);
    var replaced := name[..|a|] + " & " + name[|a| + 1..];
    assert replaced == a + " & " + b by {
      assert name[..|a|] == a && name[|a| + 1..] == b;
    }
    var r := CapitalizeWords(replaced);
    var expected := [ToUpper(a[0])] + a[1..] + " & " + [ToUpper(b[0])] + b[1..];
    assert |r| == |expected|;
    forall i | 0 <= i < |r|
      ensures r[i] == expected[i]
    {
      if i < |a| {
        assert replaced[i] == a[i];
        if i > 0 { assert replaced[i - 1] == a[i - 1]; }
      } else if i < |a| + 3 {
        assert replaced[i] == " & "[i - |a|];
      } else {
        assert replaced[i] == b[i - |a| - 3];
        if i > |a| + 3 { assert replaced[i - 1] == b[i - |a| - 4]; }
      }
    }
  }

  /** The label of a shipped theme name, given its two words. */
  lemma ShippedLabel(a: string, b: string, text: string)
    requires |a| > 0 && |b| > 0 && AllLower(a) && AllLower(b)
    requires text == [ToUpper(a[0])] + a[1..] + " & " + [ToUpper(b[0])] + b[1..]
    ensures Label(a + "-" + b) == text
  {
    TwoWordLabel(a, b);
  }

  /** The label of the first shipped theme name. */
  lemma NavyPurpleLabel()
    ensures Label("navy-purple") == "Navy & Purple"
  {
    assert "navy" + "-" + "purple" == "navy-purple";
    assert "Navy & Purple" == ['N'] + "avy" + " & " + ['P'] + "urple";
    ShippedLabel("navy", "purple", "Navy & Purple");
  }

  /** The label of another shipped theme name. */
  lemma SlateIndigoLabel()
    ensures Label("slate-indigo") == "Slate & Indigo"
  {
    assert "slate" + "-" + "indigo" == "slate-indigo";
    assert "Slate & Indigo" == ['S'] + "late" + " & " + ['I'] + "ndigo";
    ShippedLabel("slate", "indigo", "Slate & Indigo");
  }

  /** A name with two hyphens: only the first becomes " & ". */
  lemma TwoHyphensLabel()
    ensures Label("a-b-c") == "A & B-C"
  {
  }
}
