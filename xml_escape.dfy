/**
 * XML attribute escaping as the OruxMaps creator does it: five successive String.replaceAll
 * calls, ampersand first. The module proves that this chain is the same as escaping each
 * character once, so that no markup character survives and unescaping restores the name.
 */
module XmlEscape {

  /** The characters replaced, in the order the calls replace them. */
  const Specials: string := "&<>\"'"

  /** The entity that replaces a special character; any other character stands for itself. */
  function Entity(c: char): string
  {
    match c
    case '&' => "&amp;"
    case '<' => "&lt;"
    case '>' => "&gt;"
    case '"' => "&quot;"
    case '\'' => "&apos;"
    case _ => [c]
  }

  /** Every occurrence of the character c replaced by rep (a replaceAll whose pattern is one plain character). */
  function ReplaceAll(s: string, c: char, rep: string): (r: string)
    ensures c !in s ==> r == s
  {
    if s == [] then [] else (if s[0] == c then rep else [s[0]]) + ReplaceAll(s[1..], c, rep)
  }

  /** Escapes, in one pass, those characters that are among the first k specials. */
  function EscapeFirst(s: string, k: nat): string
    requires k <= |Specials|
  {
    if s == [] then [] else (if s[0] in Specials[..k] then Entity(s[0]) else [s[0]]) + EscapeFirst(s[1..], k)
  }

  /** The reference definition: every character replaced by its entity, in one pass. */
  function EscapeOnce(s: string): string { EscapeFirst(s, |Specials|) }

  /** The inverse: reads the five entities back; every other character stands for itself. */
  function Unescape(t: string): string
  {
    if t == [] then []
    else if t[0] != '&' then [t[0]] + Unescape(t[1..])
    else if StartsWith(t, "&amp;") then "&" + Unescape(t[5..])
    else if StartsWith(t, "&lt;") then "<" + Unescape(t[4..])
    else if StartsWith(t, "&gt;") then ">" + Unescape(t[4..])
    else if StartsWith(t, "&quot;") then "\"" + Unescape(t[6..])
    else if StartsWith(t, "&apos;") then "'" + Unescape(t[6..])
    else [t[0]] + Unescape(t[1..])
  }

  predicate StartsWith(t: string, p: string) { |p| <= |t| && t[..|p|] == p }

  /** No character that would end or open markup inside an attribute value. */
  predicate NoMarkup(t: string)
  {
    '<' !in t && '>' !in t && '"' !in t && '\'' !in t
  }

  lemma {:induction false} ReplaceAllAppend(a: string, b: string, c: char, rep: string)
    ensures ReplaceAll(a + b, c, rep) == ReplaceAll(a, c, rep) + ReplaceAll(b, c, rep)
    decreases |a|
  {
    if a == [] {
      assert a + b == b;
    } else {
      assert (a + b)[0] == a[0] && (a + b)[1..] == a[1..] + b;
      ReplaceAllAppend(a[1..], b, c, rep);
    }
  }

  lemma {:induction false} EscapeFirstZero(s: string)
    ensures EscapeFirst(s, 0) == s
    decreases |s|
  {
    if s != [] {
      EscapeFirstZero(s[1..]);
    }
  }

  /** The entities written so far contain none of the specials still to be replaced. */
  lemma EntityFreeOfLaterSpecials(c: char, k: nat)
    requires 1 <= k < |Specials| && c in Specials[..k]
    ensures Specials[k] !in Entity(c)
  {
  }

  /** Replacing the k-th special in the text escaped for the first k gives the text escaped
      for the first k + 1: this is where replacing the ampersand first matters. */
  lemma {:induction false} ReplaceStep(s: string, k: nat)
    requires k < |Specials|
    ensures ReplaceAll(EscapeFirst(s, k), Specials[k], Entity(Specials[k])) == EscapeFirst(s, k + 1)
    decreases |s|
  {
    if s != [] {
      var c := s[0];
      var head := if c in Specials[..k] then Entity(c) else [c];
      ReplaceAllAppend(head, EscapeFirst(s[1..], k), Specials[k], Entity(Specials[k]));
      ReplaceStep(s[1..], k);
      assert Specials[..k + 1] == Specials[..k] + [Specials[k]];
      if c in Specials[..k] {
        if k == 0 {
          assert false;
        } else {
          EntityFreeOfLaterSpecials(c, k);
        }
      } else {
        assert ReplaceAll(head, Specials[k], Entity(Specials[k])) == (if c == Specials[k] then Entity(c) else [c]);
      }
    }
  }

  lemma {:induction false} EscapeOnceNoMarkup(s: string)
    ensures NoMarkup(EscapeOnce(s))
    decreases |s|
  {
    if s != [] {
      EscapeOnceNoMarkup(s[1..]);
      assert Specials[..|Specials|] == Specials;
      var head := if s[0] in Specials then Entity(s[0]) else [s[0]];
      assert NoMarkup(head);
      assert EscapeOnce(s) == head + EscapeOnce(s[1..]);
    }
  }

  /** One escaped character followed by any text unescapes to that character first. */
  lemma UnescapeEntity(c: char, rest: string)
    ensures Unescape((if c in Specials then Entity(c) else [c]) + rest) == [c] + Unescape(rest)
  {
    var e := if c in Specials then Entity(c) else [c];
    var t := e + rest;
    assert t[..|e|] == e && t[|e|..] == rest;
    if c == '&' {
      assert StartsWith(t, "&amp;");
    } else if c == '<' {
      assert !StartsWith(t, "&amp;") by { assert t[1] == 'l'; }
      assert StartsWith(t, "&lt;");
    } else if c == '>' {
      assert !StartsWith(t, "&amp;") && !StartsWith(t, "&lt;") by { assert t[1] == 'g'; }
      assert StartsWith(t, "&gt;");
    } else if c == '"' {
      assert !StartsWith(t, "&amp;") && !StartsWith(t, "&lt;") && !StartsWith(t, "&gt;") by { assert t[1] == 'q'; }
      assert StartsWith(t, "&quot;");
    } else if c == '\'' {
      assert !StartsWith(t, "&amp;") && !StartsWith(t, "&lt;") && !StartsWith(t, "&gt;") by { assert t[1] == 'a' && t[2] == 'p'; }
      assert !StartsWith(t, "&quot;") by { assert t[1] == 'a'; }
      assert StartsWith(t, "&apos;");
    } else {
      assert c !in Specials;
      assert t[0] == c && t[1..] == rest;
    }
  }

  /** Unescaping the single-pass escape restores the original text. */
  lemma {:induction false} UnescapeEscapeOnce(s: string)
    ensures Unescape(EscapeOnce(s)) == s
    decreases |s|
  {
    if s != [] {
      assert Specials[..|Specials|] == Specials;
      UnescapeEntity(s[0], EscapeOnce(s[1..]));
      UnescapeEscapeOnce(s[1..]);
      assert [s[0]] + s[1..] == s;
    }
  }

  /** The first k of the replaceAll calls the OruxMaps creator makes, in its order. */
  function ReplaceFirst(s: string, k: nat): string
    requires k <= |Specials|
  {
    if k == 0 then s else ReplaceAll(ReplaceFirst(s, k - 1), Specials[k - 1], Entity(Specials[k - 1]))
  }

  lemma {:induction false} ReplaceFirstIsEscapeFirst(s: string, k: nat)
    requires k <= |Specials|
    ensures ReplaceFirst(s, k) == EscapeFirst(s, k)
  {
    if k == 0 {
      EscapeFirstZero(s);
    } else {
      ReplaceFirstIsEscapeFirst(s, k - 1);
      ReplaceStep(s, k - 1);
    }
  }

  /** The five calls, '&' first: each character is escaped exactly once (no "&amp;lt;"), so the
      result has no markup character and unescapes to the input. */
  lemma ReplaceChainEscapes(s: string)
    ensures ReplaceFirst(s, 5) == EscapeOnce(s)
    ensures NoMarkup(ReplaceFirst(s, 5))
    ensures Unescape(ReplaceFirst(s, 5)) == s
  {
    ReplaceFirstIsEscapeFirst(s, 5);
    EscapeOnceNoMarkup(s);
    UnescapeEscapeOnce(s);
  }

  /** The chain written out call by call, as the creator writes it. */
  lemma ReplaceFirstFive(s: string)
    ensures ReplaceFirst(s, 5) ==
      ReplaceAll(ReplaceAll(ReplaceAll(ReplaceAll(ReplaceAll(s, '&', "&amp;"), '<', "&lt;"), '>', "&gt;"), '"', "&quot;"), '\'', "&apos;")
  {
    assert Specials[0] == '&' && Specials[1] == '<' && Specials[2] == '>' && Specials[3] == '"' && Specials[4] == '\'';
    var s1 := ReplaceAll(s, '&', "&amp;");
    assert ReplaceFirst(s, 1) == s1 by { assert ReplaceFirst(s, 0) == s; }
    var s2 := ReplaceAll(s1, '<', "&lt;");
    assert ReplaceFirst(s, 2) == s2;
    var s3 := ReplaceAll(s2, '>', "&gt;");
    assert ReplaceFirst(s, 3) == s3;
    var s4 := ReplaceAll(s3, '"', "&quot;");
    assert ReplaceFirst(s, 4) == s4;
    assert ReplaceFirst(s, 5) == ReplaceAll(s4, '\'', "&apos;");
  }
}
