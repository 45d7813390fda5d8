/** What the text rules of the domain come to: trimming, codes, and the strings the worker can decode. */
module Texts {
  import opened Domain
  import opened Commands

  lemma WhiteIsSpace(c: char)
    ensures White(c) <==> IsSpace(c)
  {
  }

  /** The text t between two pieces that hold nothing else than these characters. */
  ghost predicate Cut(s: string, front: string, t: string, back: string, gone: set<char>) {
    s == front + t + back && Only(front, gone) && Only(back, gone)
  }

  predicate Only(s: string, gone: set<char>) { forall i | 0 <= i < |s| :: s[i] in gone }

  lemma CutFront(s: string, front: string, t: string, back: string, gone: set<char>)
    requires s != "" && s[0] in gone && Cut(s[1..], front, t, back, gone)
    ensures Cut(s, [s[0]] + front, t, back, gone)
  {
    assert s == [s[0]] + s[1..];
  }

  lemma CutBack(s: string, front: string, t: string, back: string, gone: set<char>)
    requires s != "" && s[|s| - 1] in gone && Cut(s[..|s| - 1], front, t, back, gone)
    ensures Cut(s, front, t, back + [s[|s| - 1]], gone)
  {
    assert s == s[..|s| - 1] + [s[|s| - 1]];
  }

  const WHITE := {' ', '\t', '\n', '\U{000B}', '\U{000C}', '\r'}

  predicate White(c: char) { c in WHITE }

  predicate AllWhite(s: string) { Only(s, WHITE) }

  /** Trimming removes white space at both ends, all of it, and nothing else. */
  lemma {:induction false} TrimIsExact(s: string) returns (front: string, back: string)
    ensures Cut(s, front, TrimSpace(s), back, WHITE)
    ensures var t := TrimSpace(s); t == "" || (!White(t[0]) && !White(t[|t| - 1]))
    decreases |s|
  {
    front, back := "", "";
    if s != "" {
      WhiteIsSpace(s[0]);
      WhiteIsSpace(s[|s| - 1]);
      if IsSpace(s[0]) {
        front, back := TrimIsExact(s[1..]);
        CutFront(s, front, TrimSpace(s), back, WHITE);
        front := [s[0]] + front;
      } else if IsSpace(s[|s| - 1]) {
        front, back := TrimIsExact(s[..|s| - 1]);
        CutBack(s, front, TrimSpace(s), back, WHITE);
        back := back + [s[|s| - 1]];
      }
    }
  }

  /** A text is blank if and only if it is all white space. */
  lemma BlankIsAllWhite(s: string)
    ensures Blank(s) <==> AllWhite(s)
  {
    var front, back := TrimIsExact(s);
    var t := TrimSpace(s);
    assert forall i | 0 <= i < |t| :: s[|front| + i] == t[i];
    if t == "" {
      forall i | 0 <= i < |s| ensures White(s[i]) {
        assert s == front + back;
      }
    }
  }

  lemma {:induction false} UpperAt(s: string, k: nat)
    requires k < |s|
    ensures |ToUpper(s)| == |s|
    ensures ToUpper(s)[k] == if 'a' <= s[k] <= 'z' then s[k] - 32 as char else s[k]
  {
    if |s| > 1 { UpperAt(s[1..], if k > 0 then k - 1 else 0); }
  }

  predicate LetterOrDigit(c: char) { 'a' <= c <= 'z' || 'A' <= c <= 'Z' || '0' <= c <= '9' }

  /** A code is 2 to 64 letters, digits, dots, underscores and hyphens, a letter or digit first; white
      space around it and the case of its letters do not matter. */
  lemma CodeIsExact(s: string)
    ensures ValidBusinessCode(s) <==>
              var t := TrimSpace(s);
              && 2 <= |t| <= 64 && LetterOrDigit(t[0])
              && forall k | 0 < k < |t| :: LetterOrDigit(t[k]) || t[k] in {'.', '_', '-'}
  {
    var t := TrimSpace(s);
    forall k | 0 <= k < |t|
      ensures |ToUpper(t)| == |t| && (IsCodeStart(ToUpper(t)[k]) <==> LetterOrDigit(t[k]))
      ensures ToUpper(t)[k] in {'.', '_', '-'} <==> t[k] in {'.', '_', '-'}
    {
      UpperAt(t, k);
    }
  }

  // ---- what decodes as a JSON string ----

  predicate IsHexNumeral(c: char) { '0' <= c <= '9' || 'a' <= c <= 'f' || 'A' <= c <= 'F' }

  /** One character of a JSON string (section 7 of RFC 8259): plain, escaped, or given by its number. */
  predicate IsToken(t: string) {
    || (|t| == 1 && t[0] >= ' ' && t[0] != '"' && t[0] != '\\')
    || (|t| == 2 && t[0] == '\\' && t[1] in {'"', '\\', '/', 'b', 'f', 'n', 'r', 't'})
    || (|t| == 6 && t[0] == '\\' && t[1] == 'u' && forall i | 2 <= i < 6 :: IsHexNumeral(t[i]))
  }

  function Joined(tokens: seq<string>): string { if tokens == [] then "" else tokens[0] + Joined(tokens[1..]) }

  lemma OneToken(t: string, rest: string)
    requires IsToken(t)
    ensures JsonCharacters(t + rest) <==> JsonCharacters(rest)
  {
    assert (t + rest)[|t|..] == rest;
    assert forall i | 0 <= i < |t| :: (t + rest)[i] == t[i];
  }

  lemma {:induction false} TokensAreCharacters(tokens: seq<string>)
    requires forall i | 0 <= i < |tokens| :: IsToken(tokens[i])
    ensures JsonCharacters(Joined(tokens))
  {
    if tokens != [] {
      TokensAreCharacters(tokens[1..]);
      OneToken(tokens[0], Joined(tokens[1..]));
    }
  }

  lemma {:induction false} CharactersAreTokens(s: string) returns (tokens: seq<string>)
    requires JsonCharacters(s)
    ensures (forall i | 0 <= i < |tokens| :: IsToken(tokens[i])) && Joined(tokens) == s
    decreases |s|
  {
    if s == "" {
      tokens := [];
    } else {
      var n := if s[0] != '\\' then 1 else if s[1] == 'u' then 6 else 2;
      assert s == s[..n] + s[n..];
      tokens := CharactersAreTokens(s[n..]);
      assert ([s[..n]] + tokens)[1..] == tokens;
      tokens := [s[..n]] + tokens;
    }
  }

  ghost predicate IsJsonString(s: string) {
    exists tokens: seq<string> :: (forall i | 0 <= i < |tokens| :: IsToken(tokens[i]))
      && s == "\"" + Joined(tokens) + "\""
  }

  /** The worker decodes null and quoted strings of such characters, with JSON white space around them,
      and nothing else. */
  lemma DecodesExactly(text: string)
    ensures DecodesAsString(text) <==> TrimJson(text) == "null" || IsJsonString(TrimJson(text))
  {
    var s := TrimJson(text);
    if DecodesAsString(text) && s != "null" {
      var tokens := CharactersAreTokens(s[1..|s| - 1]);
      assert s == "\"" + s[1..|s| - 1] + "\"";
    }
    if IsJsonString(s) {
      var tokens: seq<string> :|
        (forall i | 0 <= i < |tokens| :: IsToken(tokens[i])) && s == "\"" + Joined(tokens) + "\"";
      TokensAreCharacters(tokens);
      assert s[1..|s| - 1] == Joined(tokens);
    }
  }

  const JSON_WHITE := {' ', '\t', '\n', '\r'}

  /** The white space of JSON around a text is dropped, all of it, and nothing else. */
  lemma {:induction false} TrimJsonIsExact(s: string) returns (front: string, back: string)
    ensures Cut(s, front, TrimJson(s), back, JSON_WHITE)
    ensures var t := TrimJson(s); t == "" || (t[0] !in JSON_WHITE && t[|t| - 1] !in JSON_WHITE)
    decreases |s|
  {
    front, back := "", "";
    if s != "" && s[0] in JSON_WHITE {
      front, back := TrimJsonIsExact(s[1..]);
      CutFront(s, front, TrimJson(s), back, JSON_WHITE);
      front := [s[0]] + front;
    } else if s != "" && s[|s| - 1] in JSON_WHITE {
      front, back := TrimJsonIsExact(s[..|s| - 1]);
      CutBack(s, front, TrimJson(s), back, JSON_WHITE);
      back := back + [s[|s| - 1]];
    }
  }

  /** Which jobs the worker gets done: planning jobs, and review jobs with an empty payload or a text that
      decodes; never one of another kind. */
  lemma DeliveryIsExact(kind: JobKind, payload: Payload)
    ensures Deliverable(kind, payload) <==>
              kind == VoyagePlanned
              || (kind == AnomalyReview
                  && (payload == Empty || (payload.BareId? && (payload.id == "" || TrimJson(payload.id) == "null"
                                                              || IsJsonString(TrimJson(payload.id))))))
  {
    if payload.BareId? { DecodesExactly(payload.id); }
  }

  /** The constants of the domain, in seconds: the zero time is 719162 days before the epoch. */
  lemma Durations()
    ensures HOUR == 60 * 60 && DAY == 24 * 60 * 60 && GRACE == 15 * 60
    ensures ZERO_TIME == -(1969 * 365 + 1969 / 4 - 1969 / 100 + 1969 / 400) * 86400
  {
  }
}
