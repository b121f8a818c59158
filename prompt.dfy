/** Cleaning of a test's `system_prompt` before it is sent to the model:
    U+2028 and U+2029 become '\n', U+00AD is deleted, and then every code point
    in 128..159 (the C1 controls) is dropped. Everything else, including ASCII
    controls, zero-width characters and U+FEFF, is kept. */
module Prompt {

  const LineSeparator: char := '\U{2028}'
  const ParagraphSeparator: char := '\U{2029}'
  const SoftHyphen: char := '\U{00AD}'

  /** `ord(c) < 128 or ord(c) >= 160`. */
  predicate Kept(c: char)
  {
    c as int < 128 || c as int >= 160
  }

  /** A character that cleaning changes. */
  predicate Dirty(c: char)
  {
    c == LineSeparator || c == ParagraphSeparator || c == SoftHyphen || !Kept(c)
  }

  // ---------------------------------------------------------------------------
  // The stages as the backend writes them

  /** `s.replace(c, by)` for a one-character pattern. */
  function ReplaceChar(s: string, c: char, replacement: string): (r: string)
  {
    if s == [] then [] else (if s[0] == c then replacement else [s[0]]) + ReplaceChar(s[1..], c, replacement)
  }

  /** `''.join(c for c in s if ord(c) < 128 or ord(c) >= 160)`. */
  function KeepPrintable(s: string): (r: string)
  {
    if s == [] then [] else (if Kept(s[0]) then [s[0]] else []) + KeepPrintable(s[1..])
  }

  // ---------------------------------------------------------------------------
  // What cleaning means, one character at a time

  function CleanChar(c: char): string
  {
    if c == LineSeparator || c == ParagraphSeparator then "\n"
    else if c == SoftHyphen || !Kept(c) then ""
    else [c]
  }

  /** The cleaned prompt: every separator replaced by a newline, soft hyphens
      and C1 controls removed, all other characters kept in order. */
  function Clean(s: string): (r: string)
    ensures forall i :: 0 <= i < |r| ==> !Dirty(r[i])
    ensures |r| <= |s|
  {
    if s == [] then [] else CleanChar(s[0]) + Clean(s[1..])
  }

  lemma {:induction false} ReplaceCharAppend(a: string, b: string, c: char, replacement: string)
    ensures ReplaceChar(a + b, c, replacement) == ReplaceChar(a, c, replacement) + ReplaceChar(b, c, replacement)
  {
    if a != [] {
      assert (a + b)[0] == a[0] && (a + b)[1..] == a[1..] + b;
      ReplaceCharAppend(a[1..], b, c, replacement);
    } else {
      assert a + b == b;
    }
  }

  lemma {:induction false} KeepPrintableAppend(a: string, b: string)
    ensures KeepPrintable(a + b) == KeepPrintable(a) + KeepPrintable(b)
  {
    if a != [] {
      assert (a + b)[0] == a[0] && (a + b)[1..] == a[1..] + b;
      KeepPrintableAppend(a[1..], b);
    } else {
      assert a + b == b;
    }
  }

  /** The four stages of the backend compute exactly `Clean`. */
  lemma {:induction false} StagesAreClean(s: string)
    ensures KeepPrintable(ReplaceChar(ReplaceChar(ReplaceChar(s, LineSeparator, "\n"),
              ParagraphSeparator, "\n"), SoftHyphen, "")) == Clean(s)
  {
    if s != [] {
      var x, t := s[0], s[1..];
      var r1 := if x == LineSeparator then "\n" else [x];
      assert ReplaceChar(s, LineSeparator, "\n") == r1 + ReplaceChar(t, LineSeparator, "\n");
      var t1 := ReplaceChar(t, LineSeparator, "\n");
      ReplaceCharAppend(r1, t1, ParagraphSeparator, "\n");
      var r2 := ReplaceChar(r1, ParagraphSeparator, "\n");
      var t2 := ReplaceChar(t1, ParagraphSeparator, "\n");
      ReplaceCharAppend(r2, t2, SoftHyphen, "");
      var r3 := ReplaceChar(r2, SoftHyphen, "");
      var t3 := ReplaceChar(t2, SoftHyphen, "");
      KeepPrintableAppend(r3, t3);
      assert KeepPrintable(r3) == CleanChar(x);
      StagesAreClean(t);
    }
  }

  /** The clean-up of `submit_answers`: three replacements, then the filter loop. */
  method CleanPrompt(template: string) returns (cleanPrompt: string)
    ensures cleanPrompt == Clean(template)
  {
    cleanPrompt := template;
    cleanPrompt := ReplaceChar(cleanPrompt, LineSeparator, "\n");
    cleanPrompt := ReplaceChar(cleanPrompt, ParagraphSeparator, "\n");
    cleanPrompt := ReplaceChar(cleanPrompt, SoftHyphen, "");
    var replaced := cleanPrompt;
    var kept: string := "";
    for i := 0 to |replaced|
      invariant kept == KeepPrintable(replaced[..i])
    {
      var c := replaced[i];
      assert replaced[..i + 1] == replaced[..i] + [c];
      KeepPrintableAppend(replaced[..i], [c]);
      if Kept(c) {
        kept := kept + [c];
      }
    }
    assert replaced[..|replaced|] == replaced;
    cleanPrompt := kept;
    StagesAreClean(template);
  }

  // ---------------------------------------------------------------------------
  // Properties

  /** A prompt is left unchanged exactly when it holds no dirty character. */
  lemma {:induction false} CleanFixedIff(s: string)
    ensures Clean(s) == s <==> forall i :: 0 <= i < |s| ==> !Dirty(s[i])
  {
    if (forall i :: 0 <= i < |s| ==> !Dirty(s[i])) && s != [] {
      assert !Dirty(s[0]);
      assert forall i :: 0 <= i < |s[1..]| ==> !Dirty(s[1..][i]) by {
        forall i | 0 <= i < |s[1..]| ensures !Dirty(s[1..][i]) {
          assert s[1..][i] == s[i + 1];
        }
      }
      CleanFixedIff(s[1..]);
    }
  }

  /** Cleaning twice is cleaning once. */
  lemma CleanIdempotent(s: string)
    ensures Clean(Clean(s)) == Clean(s)
  {
    CleanFixedIff(Clean(s));
  }

  /** Cleaning a concatenation cleans each part. */
  lemma {:induction false} CleanAppend(a: string, b: string)
    ensures Clean(a + b) == Clean(a) + Clean(b)
  {
    if a != [] {
      assert (a + b)[0] == a[0] && (a + b)[1..] == a[1..] + b;
      CleanAppend(a[1..], b);
    } else {
      assert a + b == b;
    }
  }
}
