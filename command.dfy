/**
 * Recognising the chat command that starts the wizard:
 * `@<bot> создай задачу <title>` (`parse_create_command`), and the
 * case-insensitive mention test the websocket loop applies first.
 */
module Command {
  import opened Wrappers
  import opened Text

  /** A case-insensitive occurrence of `m` starting at index `i` of `s`. */
  predicate MentionAt(s: string, i: int, m: string) {
    0 <= i && i + |m| <= |s| && EqualIgnoreCase(s[i..i + |m|], m)
  }

  /** `s` holds no case-insensitive occurrence of `m` at all. */
  predicate Mentionless(s: string, m: string) {
    forall i :: 0 <= i <= |s| ==> !MentionAt(s, i, m)
  }

  lemma MentionlessTail(s: string, m: string)
    requires s != []
    ensures Mentionless(s, m) ==> Mentionless(s[1..], m)
  {
    forall i | 0 <= i <= |s[1..]| && Mentionless(s, m)
      ensures !MentionAt(s[1..], i, m)
    {
      if i + |m| <= |s[1..]| {
        assert s[1..][i..i + |m|] == s[i + 1..i + 1 + |m|];
        assert !MentionAt(s, i + 1, m);
      }
    }
  }

  /**
   * `re.sub(re.escape(m), "", s, flags=re.IGNORECASE)`: scanning from the left,
   * every non-overlapping case-insensitive occurrence of `m` is deleted.
   */
  function RemoveMentions(s: string, m: string): (r: string)
    requires m != []
    ensures |r| <= |s|
    ensures Mentionless(s, m) ==> r == s
    decreases |s|
  {
    if s == [] then []
    else if MentionAt(s, 0, m) then RemoveMentions(s[|m|..], m)
    else
      MentionlessTail(s, m);
      [s[0]] + RemoveMentions(s[1..], m)
  }

  /** Any occurrence of the mention makes the text shorter: the substitution only leaves `s` alone when there is nothing to remove. */
  lemma {:induction false} MentionShrinks(s: string, m: string, i: int)
    requires m != [] && MentionAt(s, i, m)
    ensures |RemoveMentions(s, m)| < |s|
    decreases |s|
  {
    if !MentionAt(s, 0, m) {
      assert i > 0;
      assert s[1..][i - 1..i - 1 + |m|] == s[i..i + |m|];
      MentionShrinks(s[1..], m, i - 1);
    }
  }

  /**
   * The regular expression `^создай\s+задачу\s+(.+)$`, searched case-insensitively
   * in a stripped text, followed by `group(1).strip()`.
   */
  function MatchCreate(text: string): (r: Option<string>)
    requires IsStripped(text)
    ensures r.Some? ==> r.value != [] && IsStripped(r.value) && '\n' !in r.value
  {
    if |text| >= 6 && EqualIgnoreCase(text[..6], "создай") then
      var a := text[6..];
      if a != [] && IsSpace(a[0]) then
        var b := TrimStart(a);
        if |b| >= 6 && EqualIgnoreCase(b[..6], "задачу") then
          var c := b[6..];
          if c != [] && IsSpace(c[0]) then
            var g := TrimStart(c);
            if g != [] && '\n' !in g then
              assert '\n' !in multiset(g);
              Some(Strip(g))
            else None
          else None
        else None
      else None
    else None
  }

  /**
   * The text `parse_create_command` matches: the message stripped, every
   * `@bot_username` removed case-insensitively, and the rest stripped again.
   */
  function Normalize(message: string, botUsername: string): (text: string)
    ensures IsStripped(text) && |text| <= |message|
  {
    Strip(RemoveMentions(Strip(message), "@" + botUsername))
  }

  /**
   * `parse_create_command(message, bot_username)`: the normalised message must
   * read `создай задачу <title>` in any letter case. The title is never empty,
   * carries no surrounding whitespace and is one line.
   */
  function ParseCreateCommand(message: string, botUsername: string): (r: Option<string>)
    ensures r.Some? ==> r.value != [] && IsStripped(r.value) && '\n' !in r.value
  {
    MatchCreate(Normalize(message, botUsername))
  }

  lemma CanonicalTailMentionless(m: string, t: string)
    requires |m| > 0 && m[0] == '@' && Mentionless(t, m)
    ensures Mentionless(" создай задачу " + t, m)
  {
    var tail := " создай задачу " + t;
    assert Lower('@') == '@';
    forall i | 0 <= i <= |tail|
      ensures !MentionAt(tail, i, m)
    {
      if MentionAt(tail, i, m) {
        assert Lower(tail[i]) == Lower(m[0]);
        assert tail[i] == '@';
        if i >= 15 {
          assert tail[i..i + |m|] == t[i - 15..i - 15 + |m|];
          assert MentionAt(t, i - 15, m);
        }
      }
    }
  }

  lemma VerbStripped(t: string)
    requires t != [] && IsStripped(t)
    ensures IsStripped("создай задачу " + t)
  {
    var text := "создай задачу " + t;
    assert text[0] == 'с' && text[|text| - 1] == t[|t| - 1];
  }

  lemma SplitAt(x: string, y: string)
    ensures (x + y)[..|x|] == x && (x + y)[|x|..] == y
  {
  }

  /** The command text taken apart into its words and the spaces between them. */
  lemma VerbWords(t: string)
    ensures "создай задачу " + t == "создай" + (" " + ("задачу" + (" " + t)))
  {
    var verb, noun := "создай", "задачу";
    assert "создай задачу " == verb + " " + noun + " ";
    assert (verb + " " + noun + " ") + t == verb + (" " + (noun + (" " + t)));
  }

  /** The match, given the pieces the regular expression takes the text apart into. */
  lemma MatchPieces(text: string, b: string, t: string)
    requires IsStripped(text) && |text| >= 6 && EqualIgnoreCase(text[..6], "создай")
    requires text[6..] == " " + b && |b| >= 6 && EqualIgnoreCase(b[..6], "задачу")
    requires b[6..] == " " + t && t != [] && IsStripped(t) && '\n' !in t
    ensures MatchCreate(text) == Some(t)
  {
    TrimStartAt(" " + b, 1);
    TrimStartAt(" " + t, 1);
    assert (" " + b)[1..] == b;
    assert (" " + t)[1..] == t;
  }

  lemma MatchCanonical(t: string)
    requires t != [] && IsStripped(t) && '\n' !in t
    ensures IsStripped("создай задачу " + t)
    ensures MatchCreate("создай задачу " + t) == Some(t)
  {
    VerbStripped(t);
    VerbWords(t);
    var b := "задачу" + (" " + t);
    SplitAt("создай", " " + b);
    SplitAt("задачу", " " + t);
    MatchPieces("создай задачу " + t, b, t);
  }

  lemma StripLeadingSpace(x: string)
    requires x != [] && IsStripped(x)
    ensures Strip(" " + x) == x
  {
    var y := " " + x;
    assert y[1..] == x;
  }

  lemma RemoveLeadingMention(m: string, tail: string)
    requires m != [] && Mentionless(tail, m)
    ensures RemoveMentions(m + tail, m) == tail
  {
    var msg := m + tail;
    assert msg[0..|m|] == m;
    assert MentionAt(msg, 0, m);
    assert msg[|m|..] == tail;
  }

  lemma CanonicalStripped(u: string, t: string)
    requires t != [] && IsStripped(t)
    ensures IsStripped("@" + u + " создай задачу " + t)
  {
    var msg := "@" + u + " создай задачу " + t;
    assert msg[0] == '@' && msg[|msg| - 1] == t[|t| - 1];
  }

  lemma CanonicalWithoutMention(u: string, t: string)
    requires Mentionless(t, "@" + u)
    ensures RemoveMentions("@" + u + " создай задачу " + t, "@" + u) == " создай задачу " + t
  {
    var m := "@" + u;
    var tail := " создай задачу " + t;
    assert m + tail == "@" + u + " создай задачу " + t;
    CanonicalTailMentionless(m, t);
    RemoveLeadingMention(m, tail);
  }

  lemma NormalizeOf(msg: string, u: string, text: string)
    requires IsStripped(msg) && text != [] && IsStripped(text)
    requires RemoveMentions(msg, "@" + u) == " " + text
    ensures Normalize(msg, u) == text
  {
    assert Strip(msg) == msg;
    StripLeadingSpace(text);
  }

  lemma SpaceBeforeVerb(t: string)
    ensures " " + ("создай задачу " + t) == " создай задачу " + t
  {
    var verb := "создай задачу ";
    assert " " + verb == " создай задачу ";
    assert " " + (verb + t) == (" " + verb) + t;
  }

  lemma NormalizeCanonical(u: string, t: string)
    requires t != [] && IsStripped(t) && Mentionless(t, "@" + u)
    ensures Normalize("@" + u + " создай задачу " + t, u) == "создай задачу " + t
  {
    var text := "создай задачу " + t;
    CanonicalStripped(u, t);
    CanonicalWithoutMention(u, t);
    SpaceBeforeVerb(t);
    VerbStripped(t);
    NormalizeOf("@" + u + " создай задачу " + t, u, text);
  }

  /** The canonical command gives back exactly the title that was typed. */
  lemma ParseCanonicalCommand(u: string, t: string)
    requires t != [] && IsStripped(t) && '\n' !in t && Mentionless(t, "@" + u)
    ensures ParseCreateCommand("@" + u + " создай задачу " + t, u) == Some(t)
  {
    NormalizeCanonical(u, t);
    MatchCanonical(t);
  }

  /** The characters of `text` from index `i` up to index `k` are whitespace. */
  predicate SpaceBetween(text: string, i: int, k: int) {
    0 <= i <= k <= |text| && forall x :: i <= x < k ==> IsSpace(text[x])
  }

  /**
   * The shape of a text `MatchCreate` accepts, given the pieces it takes the
   * text apart into: `создай` in any letter case, whitespace, `задачу` in any
   * letter case at index `j`, whitespace, and from index `e` on the title `g`
   * up to the end.
   */
  lemma ShapeOf(text: string, b: string, g: string) returns (j: int, e: int)
    requires |text| >= 7 && EqualIgnoreCase(text[..6], "создай") && IsSpace(text[6])
    requires b == TrimStart(text[6..]) && |b| >= 7 && EqualIgnoreCase(b[..6], "задачу") && IsSpace(b[6])
    requires g == TrimStart(b[6..]) && g != []
    ensures 7 <= j && j + 7 <= e < |text| && g == text[e..]
    ensures SpaceBetween(text, 6, j) && EqualIgnoreCase(text[j..j + 6], "задачу") && IsSpace(text[j + 6]) && SpaceBetween(text, j + 6, e)
    ensures !IsSpace(text[j]) && !IsSpace(text[e])
  {
    j, e := |text| - |b|, |text| - |g|;
    assert b[0] == text[j] && g[0] == text[e];
    SpaceRun(text, 6, b);
    PrefixOfSuffix(text, j, b);
    assert b[6..] == text[j + 6..];
    SpaceRun(text, j + 6, g);
  }

  /** The pieces `MatchCreate` takes a matching text apart into. */
  lemma MatchSteps(text: string) returns (b: string, g: string)
    requires IsStripped(text) && MatchCreate(text).Some?
    ensures |text| >= 7 && EqualIgnoreCase(text[..6], "создай") && IsSpace(text[6])
    ensures b == TrimStart(text[6..]) && |b| >= 7 && EqualIgnoreCase(b[..6], "задачу") && IsSpace(b[6])
    ensures g == TrimStart(b[6..]) && g != [] && MatchCreate(text) == Some(g)
  {
    if !(|text| >= 6 && EqualIgnoreCase(text[..6], "создай")) { assert false; }
    var a := text[6..];
    if !(a != [] && IsSpace(a[0])) { assert false; }
    b := TrimStart(a);
    if !(|b| >= 6 && EqualIgnoreCase(b[..6], "задачу")) { assert false; }
    var c := b[6..];
    if !(c != [] && IsSpace(c[0])) { assert false; }
    g := TrimStart(c);
    if !(g != [] && '\n' !in g) { assert false; }
    assert g == text[|text| - |g|..] && IsStripped(g);
  }

  lemma PrefixOfSuffix(text: string, j: int, b: string)
    requires 0 <= j <= |text| && b == text[j..] && |b| >= 6
    ensures text[j..j + 6] == b[..6]
  {
  }

  /** The whitespace run `TrimStart` drops from the suffix of `text` at `k`, leaving `r`, is whitespace in `text`. */
  lemma SpaceRun(text: string, k: int, r: string)
    requires 0 <= k <= |text| && r == TrimStart(text[k..])
    ensures |r| <= |text| - k && r == text[|text| - |r|..]
    ensures SpaceBetween(text, k, |text| - |r|)
  {
    var c := text[k..];
    forall x | k <= x < |text| - |r|
      ensures IsSpace(text[x])
    {
      assert text[x] == c[..|c| - |r|][x - k];
    }
  }

  /**
   * The text `^создай\s+задачу\s+(.+)$` matches, with the whitespace runs
   * taken whole: `создай` in any letter case, a whitespace run up to index
   * `j`, `задачу` in any letter case, a whitespace run up to index `e`, and
   * from `e` on a one-line title.
   */
  predicate CreateShape(text: string, j: int, e: int) {
    && 7 <= j && j + 7 <= e < |text|
    && EqualIgnoreCase(text[..6], "создай") && SpaceBetween(text, 6, j) && !IsSpace(text[j])
    && EqualIgnoreCase(text[j..j + 6], "задачу") && SpaceBetween(text, j + 6, e) && !IsSpace(text[e])
    && '\n' !in text[e..]
  }

  /** `TrimStart` of the suffix at `k` skips exactly the whitespace run up to `e`. */
  lemma RunSkipped(text: string, k: int, e: int)
    requires SpaceBetween(text, k, e) && (e == |text| || !IsSpace(text[e]))
    ensures TrimStart(text[k..]) == text[e..]
  {
    var c := text[k..];
    assert c[..e - k] == text[k..e];
    TrimStartAt(c, e - k);
    assert c[e - k..] == text[e..];
  }

  /**
   * Every text of the command's shape is accepted, whatever the letter case
   * and however long the whitespace runs, with the title that follows them.
   */
  lemma MatchShape(text: string, j: int, e: int)
    requires IsStripped(text) && CreateShape(text, j, e)
    ensures MatchCreate(text) == Some(text[e..])
  {
    var b, g := text[j..], text[e..];
    RunSkipped(text, 6, j);
    assert b[..6] == text[j..j + 6] && b[6..] == text[j + 6..] && b[6] == text[j + 6];
    RunSkipped(text, j + 6, e);
    assert g[0] == text[e] && g[|g| - 1] == text[|text| - 1];
    MatchFromRuns(text, b, g);
  }

  /** The match, given what each `TrimStart` leaves. */
  lemma MatchFromRuns(text: string, b: string, g: string)
    requires IsStripped(text) && |text| >= 7 && EqualIgnoreCase(text[..6], "создай") && IsSpace(text[6])
    requires b == TrimStart(text[6..]) && |b| >= 7 && EqualIgnoreCase(b[..6], "задачу") && IsSpace(b[6])
    requires g == TrimStart(b[6..]) && g != [] && IsStripped(g) && '\n' !in g
    ensures MatchCreate(text) == Some(g)
  {
    assert Strip(g) == g;
  }

  /**
   * Conversely, a message the command parser accepts reads, once normalised,
   * `создай`, whitespace, `задачу` at index `j`, whitespace, and from index `e`
   * on exactly the title it returns.
   */
  lemma ParseCreateShape(message: string, botUsername: string) returns (j: int, e: int)
    requires ParseCreateCommand(message, botUsername).Some?
    ensures var text := Normalize(message, botUsername);
      && 7 <= j && j + 7 <= e < |text| && ParseCreateCommand(message, botUsername) == Some(text[e..])
      && EqualIgnoreCase(text[..6], "создай") && IsSpace(text[6]) && SpaceBetween(text, 6, j)
      && EqualIgnoreCase(text[j..j + 6], "задачу") && IsSpace(text[j + 6]) && SpaceBetween(text, j + 6, e)
      && CreateShape(text, j, e)
  {
    var text := Normalize(message, botUsername);
    var b, g := MatchSteps(text);
    j, e := ShapeOf(text, b, g);
  }

  /**
   * `parse_create_command` returns `t` exactly when the normalised message has
   * the command's shape with `t` after the second whitespace run.
   */
  lemma ParseCreateIff(message: string, botUsername: string, t: string)
    ensures ParseCreateCommand(message, botUsername) == Some(t) <==>
      exists j, e :: CreateShape(Normalize(message, botUsername), j, e) && t == Normalize(message, botUsername)[e..]
  {
    var text := Normalize(message, botUsername);
    if ParseCreateCommand(message, botUsername) == Some(t) {
      var j, e := ParseCreateShape(message, botUsername);
      assert CreateShape(text, j, e) && t == text[e..];
    }
    if exists j, e :: CreateShape(text, j, e) && t == text[e..] {
      var j, e :| CreateShape(text, j, e) && t == text[e..];
      MatchShape(text, j, e);
    }
  }

  /** `needle` occurs in `hay` at index `i`. */
  predicate OccursAt(hay: string, needle: string, i: int) {
    0 <= i && i + |needle| <= |hay| && hay[i..i + |needle|] == needle
  }

  /** The websocket loop's trigger test: `@bot_username` occurs in the lower-cased message. */
  predicate MentionsBot(message: string, botUsername: string) {
    exists i | 0 <= i <= |message| :: OccursAt(LowerStr(message), "@" + botUsername, i)
  }

  /** The canonical command mentions the bot, whose configured name is lower-case. */
  lemma CanonicalCommandMentionsBot(u: string, t: string)
    requires LowerStr(u) == u
    ensures MentionsBot("@" + u + " создай задачу " + t, u)
  {
    var msg := "@" + u + " создай задачу " + t;
    var low := LowerStr(msg);
    assert Lower('@') == '@';
    forall j | 0 <= j < |u| + 1
      ensures low[j] == ("@" + u)[j]
    {
      if j > 0 {
        assert msg[j] == u[j - 1];
        assert LowerStr(u)[j - 1] == Lower(u[j - 1]);
      }
    }
    assert low[0..|u| + 1] == "@" + u;
    assert OccursAt(low, "@" + u, 0);
  }
}
