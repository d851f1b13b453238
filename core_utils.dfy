/**
 * `name_to_key` of registrar/apps/core/utils.py: spaces and underscores
 * become hyphens, the result is lower-cased, and every character outside
 * `[a-z0-9-]` is removed.  Lower-casing is modelled for ASCII letters only.
 */
module CoreUtils {
  import opened CoreConstants

  /** `s.replace(a, b)` for single characters. */
  function Replace(s: string, a: char, b: char): (r: string)
    ensures |r| == |s|
    ensures forall i :: 0 <= i < |s| ==> r[i] == (if s[i] == a then b else s[i])
  {
    if s == [] then [] else [if s[0] == a then b else s[0]] + Replace(s[1..], a, b)
  }

  function LowerChar(c: char): char
  {
    if 'A' <= c <= 'Z' then (c as int - 'A' as int + 'a' as int) as char else c
  }

  /** `s.lower()` on ASCII letters. */
  function Lower(s: string): (r: string)
    ensures |r| == |s|
    ensures forall i :: 0 <= i < |s| ==> r[i] == LowerChar(s[i])
  {
    if s == [] then [] else [LowerChar(s[0])] + Lower(s[1..])
  }

  /** The characters `[a-z0-9-]` that survive the final substitution. */
  predicate IsKeyChar(c: char)
  {
    ('a' <= c <= 'z') || ('0' <= c <= '9') || c == '-'
  }

  /** `re.sub(r'[^a-z0-9-]', '', s)`: the key characters of s, in order. */
  function KeepKeyChars(s: string): (r: string)
    ensures |r| <= |s|
    ensures forall i :: 0 <= i < |r| ==> IsKeyChar(r[i])
  {
    if s == [] then []
    else if IsKeyChar(s[0]) then [s[0]] + KeepKeyChars(s[1..])
    else KeepKeyChars(s[1..])
  }

  /** `name_to_key`: a key no longer than the name, made of key characters only. */
  function NameToKey(name: string): (r: string)
    ensures |r| <= |name|
    ensures forall i :: 0 <= i < |r| ==> IsKeyChar(r[i])
  {
    KeepKeyChars(Lower(Replace(Replace(name, ' ', '-'), '_', '-')))
  }

  /** The output holds only lower-case letters, digits and hyphens. */
  lemma NameToKeyCharset(name: string)
    ensures forall i :: 0 <= i < |NameToKey(name)| ==> IsKeyChar(NameToKey(name)[i])
  {
  }

  /** A string of key characters is a fixed point of every step. */
  lemma KeyCharsFixed(s: string)
    requires forall i :: 0 <= i < |s| ==> IsKeyChar(s[i])
    ensures Replace(s, ' ', '-') == s
    ensures Replace(s, '_', '-') == s
    ensures Lower(s) == s
    ensures KeepKeyChars(s) == s
  {
    KeepFixed(s);
  }

  lemma {:induction false} KeepFixed(s: string)
    requires forall i :: 0 <= i < |s| ==> IsKeyChar(s[i])
    ensures KeepKeyChars(s) == s
  {
    if s != [] {
      KeepFixed(s[1..]);
      assert [s[0]] + s[1..] == s;
    }
  }

  /** `name_to_key` is idempotent. */
  lemma NameToKeyIdempotent(name: string)
    ensures NameToKey(NameToKey(name)) == NameToKey(name)
  {
    var k := NameToKey(name);
    KeyCharsFixed(k);
  }

  /** A non-empty key matches `PROGRAM_KEY_PATTERN`. */
  lemma NameToKeyIsProgramKey(name: string)
    requires NameToKey(name) != ""
    ensures IsProgramKey(NameToKey(name))
  {
    var k := NameToKey(name);
    forall i | 0 <= i < |k| ensures IsProgramKeyChar(k[i]) {
      assert IsKeyChar(k[i]);
    }
  }

  lemma ReplaceAppend(a: string, b: string, x: char, y: char)
    ensures Replace(a + b, x, y) == Replace(a, x, y) + Replace(b, x, y)
  {
    assert forall i :: 0 <= i < |a + b| ==> Replace(a + b, x, y)[i] == (Replace(a, x, y) + Replace(b, x, y))[i];
  }

  lemma LowerAppend(a: string, b: string)
    ensures Lower(a + b) == Lower(a) + Lower(b)
  {
    assert forall i :: 0 <= i < |a + b| ==> Lower(a + b)[i] == (Lower(a) + Lower(b))[i];
  }

  /** A character survives exactly when it occurs in the input and is a key character. */
  lemma {:induction false} KeepKeyCharsMembers(s: string, c: char)
    ensures c in KeepKeyChars(s) <==> c in s && IsKeyChar(c)
  {
    if s != [] {
      KeepKeyCharsMembers(s[1..], c);
      assert s == [s[0]] + s[1..];
    }
  }

  /** One character is kept exactly when it is a key character. */
  lemma KeepKeyCharsOfChar(c: char)
    ensures KeepKeyChars([c]) == if IsKeyChar(c) then [c] else []
  {
    assert [c][1..] == [];
  }

  /** The substitution works character by character: with `KeepKeyCharsOfChar` this determines it on every string. */
  lemma {:induction false} KeepAppend(a: string, b: string)
    ensures KeepKeyChars(a + b) == KeepKeyChars(a) + KeepKeyChars(b)
  {
    if a != [] {
      assert (a + b)[0] == a[0];
      assert (a + b)[1..] == a[1..] + b;
      KeepAppend(a[1..], b);
    } else {
      assert a + b == b;
    }
  }

  /** Every step works character by character, so the key of a concatenation is the concatenation of keys. */
  lemma NameToKeyAppend(a: string, b: string)
    ensures NameToKey(a + b) == NameToKey(a) + NameToKey(b)
  {
    ReplaceAppend(a, b, ' ', '-');
    ReplaceAppend(Replace(a, ' ', '-'), Replace(b, ' ', '-'), '_', '-');
    LowerAppend(Replace(Replace(a, ' ', '-'), '_', '-'), Replace(Replace(b, ' ', '-'), '_', '-'));
    KeepAppend(Lower(Replace(Replace(a, ' ', '-'), '_', '-')), Lower(Replace(Replace(b, ' ', '-'), '_', '-')));
  }

  /** The documented example, word by word. */
  lemma NameToKeyExample(name: string)
    requires name == "Master's in Computer Science"
    ensures NameToKey(name) == "masters-in-computer-science"
  {
    var w1, w2, w3, w4 := name[..8], name[8..11], name[11..20], name[20..];
    assert name == w1 + w2 + w3 + w4;
    MastersKey(w1);
    InKey(w2);
    ComputerKey(w3);
    ScienceKey(w4);
    KeyOfWords(w1, w2, w3, w4);
  }

  lemma KeyOfWords(w1: string, w2: string, w3: string, w4: string)
    requires NameToKey(w1) == "masters" && NameToKey(w2) == "-in"
    requires NameToKey(w3) == "-computer" && NameToKey(w4) == "-science"
    ensures NameToKey(w1 + w2 + w3 + w4) == "masters-in-computer-science"
  {
    NameToKeyAppend(w1 + w2 + w3, w4);
    NameToKeyAppend(w1 + w2, w3);
    NameToKeyAppend(w1, w2);
    KeyConcat(NameToKey(w1), NameToKey(w2), NameToKey(w3), NameToKey(w4));
  }

  lemma KeyConcat(a: string, b: string, c: string, d: string)
    requires a == "masters" && b == "-in" && c == "-computer" && d == "-science"
    ensures a + b + c + d == "masters-in-computer-science"
  {
  }

  lemma InKey(w: string)
    requires w == " in"
    ensures NameToKey(w) == "-in"
  {
    forall i | 1 <= i < |w| ensures ('a' <= w[i] <= 'z' || 'A' <= w[i] <= 'Z') && "-in"[i] == LowerChar(w[i]) {
      assert i == 1 || i == 2;
    }
    WordKey(w, "-in");
  }

  lemma ComputerKey(w: string)
    requires w == " Computer"
    ensures NameToKey(w) == "-computer"
  {
    forall i | 1 <= i < |w| ensures ('a' <= w[i] <= 'z' || 'A' <= w[i] <= 'Z') && "-computer"[i] == LowerChar(w[i]) {
      assert i == 1 || i == 2 || i == 3 || i == 4 || i == 5 || i == 6 || i == 7 || i == 8;
    }
    WordKey(w, "-computer");
  }

  lemma ScienceKey(w: string)
    requires w == " Science"
    ensures NameToKey(w) == "-science"
  {
    forall i | 1 <= i < |w| ensures ('a' <= w[i] <= 'z' || 'A' <= w[i] <= 'Z') && "-science"[i] == LowerChar(w[i]) {
      assert i == 1 || i == 2 || i == 3 || i == 4 || i == 5 || i == 6 || i == 7;
    }
    WordKey(w, "-science");
  }

  /** The possessive's apostrophe is dropped. */
  lemma MastersKey(w: string)
    requires w == "Master's"
    ensures NameToKey(w) == "masters"
  {
    var lowered := Lower(Replace(Replace(w, ' ', '-'), '_', '-'));
    forall i | 0 <= i < |lowered| ensures lowered[i] == "master's"[i] {
      assert i == 0 || i == 1 || i == 2 || i == 3 || i == 4 || i == 5 || i == 6 || i == 7;
    }
    assert lowered == lowered[..6] + [lowered[6]] + lowered[7..];
    KeepFixed(lowered[..6]);
    KeepFixed(lowered[7..]);
    KeepDropsOne(lowered[..6], lowered[6], lowered[7..]);
  }

  /** Removing one non-key character between two runs that are kept whole. */
  lemma KeepDropsOne(a: string, c: char, b: string)
    requires KeepKeyChars(a) == a && KeepKeyChars(b) == b
    requires !IsKeyChar(c)
    ensures KeepKeyChars(a + [c] + b) == a + b
  {
    KeepKeyCharsOfChar(c);
    KeepAppend(a, [c]);
    KeepAppend(a + [c], b);
  }

  /** A space followed by a capitalised word of letters becomes a hyphen and the lower-cased word. */
  lemma WordKey(w: string, k: string)
    requires |w| == |k| >= 1 && w[0] == ' ' && k[0] == '-'
    requires forall i :: 1 <= i < |w| ==> ('a' <= w[i] <= 'z' || 'A' <= w[i] <= 'Z') && k[i] == LowerChar(w[i])
    ensures NameToKey(w) == k
  {
    var lowered := Lower(Replace(Replace(w, ' ', '-'), '_', '-'));
    assert lowered == k;
    KeyCharsFixed(k);
  }
}
