/**
 * The announcement text: a template with the user id substituted, as
 * `fmt.Sprintf(template, userId)` with a single `%s`. Each template is a
 * fixed prefix, the user id, and a suffix naming the day.
 */
module Announce {
  import opened Strings
  import opened Payload
  import opened Calendar

  /** The template sets: the one of internal/wfh and main.go, and the one of the generator package. */
  datatype Wording = Canonical | Generator

  const Mention: string := "<!here> <@"

  function Suffix(w: Wording, t: Template): string {
    match (w, t)
    case (_, Today) => "> is working from home today"
    case (Canonical, Tomorrow) => "> will be working from home tomorrow"
    case (Canonical, OnMonday) => "> will be working from home on Monday"
    case (Generator, Tomorrow) => "> will work from home tomorrow"
    case (Generator, OnMonday) => "> will work from home on Monday"
  }

  /** The message for `user` under template `t`: the mention prefix, the user id, then the template's day phrase. */
  function Render(w: Wording, t: Template, user: string): (msg: string)
    ensures |msg| == |Mention| + |user| + |Suffix(w, t)|
    ensures HasPrefix(msg, Mention)
    ensures msg[|Mention|..|Mention| + |user|] == user
    ensures HasSuffix(msg, Suffix(w, t))
  {
    var msg := Mention + user + Suffix(w, t);
    assert msg[..|Mention|] == Mention;
    assert msg[|Mention|..|Mention| + |user|] == user;
    assert msg[|msg| - |Suffix(w, t)|..] == Suffix(w, t);
    msg
  }

  /** Reads a message back: which template it was made from, and for which user. */
  function Parse(w: Wording, msg: string): Option<(Template, string)> {
    if HasPrefix(msg, Mention) then ParseTail(w, msg[|Mention|..]) else None
  }

  /** Reads what follows the mention prefix: the user id and the template's suffix. */
  function ParseTail(w: Wording, rest: string): Option<(Template, string)> {
    if HasSuffix(rest, Suffix(w, Today)) then Some((Today, rest[..|rest| - |Suffix(w, Today)|]))
    else if HasSuffix(rest, Suffix(w, Tomorrow)) then Some((Tomorrow, rest[..|rest| - |Suffix(w, Tomorrow)|]))
    else if HasSuffix(rest, Suffix(w, OnMonday)) then Some((OnMonday, rest[..|rest| - |Suffix(w, OnMonday)|]))
    else None
  }

  /** No template's suffix is a suffix of another's: they end in "today", "tomorrow" and "on Monday". */
  lemma SuffixesIncomparable(w: Wording, t: Template, u: Template)
    requires t != u
    ensures !HasSuffix(Suffix(w, t), Suffix(w, u))
  {
    var a, b := Suffix(w, t), Suffix(w, u);
    if (t == Today && u == OnMonday) || (t == OnMonday && u == Today) {
      NotSuffixWhenDiffer(a, b, 5);
    } else {
      NotSuffixWhenDiffer(a, b, 1);
    }
  }

  /** A message whose tail is `user` followed by one template's suffix ends with no other template's suffix. */
  lemma OnlyOwnSuffix(w: Wording, t: Template, u: Template, user: string)
    requires t != u
    ensures !HasSuffix(user + Suffix(w, t), Suffix(w, u))
  {
    SuffixesIncomparable(w, t, u);
    SuffixesIncomparable(w, u, t);
    if HasSuffix(user + Suffix(w, t), Suffix(w, u)) {
      SuffixOfConcat(user, Suffix(w, t), Suffix(w, u));
      assert false;
    }
  }

  lemma ParseTailRoundTrip(w: Wording, t: Template, user: string)
    ensures ParseTail(w, user + Suffix(w, t)) == Some((t, user))
  {
    var s := Suffix(w, t);
    var rest := user + s;
    assert HasSuffix(rest, s) by {
      assert rest[|rest| - |s|..] == s;
    }
    assert rest[..|rest| - |s|] == user;
    if t != Today {
      OnlyOwnSuffix(w, t, Today, user);
    }
    if t == OnMonday {
      OnlyOwnSuffix(w, t, Tomorrow, user);
    }
  }

  /** Substituting the user id loses nothing: the message names its template and its user. */
  lemma ParseRender(w: Wording, t: Template, user: string)
    ensures Parse(w, Render(w, t, user)) == Some((t, user))
  {
    var tail := user + Suffix(w, t);
    assert Render(w, t, user) == Mention + tail;
    PrefixOfConcat(Mention, tail);
    ParseTailRoundTrip(w, t, user);
  }

  lemma ParseTailSound(w: Wording, rest: string, t: Template, u: string)
    requires ParseTail(w, rest) == Some((t, u))
    ensures rest == u + Suffix(w, t)
  {
    SplitAtSuffix(rest, Suffix(w, t));
  }

  /** Whatever `Parse` reads back is exactly the message it came from. */
  lemma ParseSound(w: Wording, m: string, t: Template, u: string)
    requires Parse(w, m) == Some((t, u))
    ensures m == Render(w, t, u)
  {
    var rest := m[|Mention|..];
    assert m == Mention + rest;
    ParseTailSound(w, rest, t, u);
  }

  /** Two messages are equal only when they announce the same day for the same user. */
  lemma RenderInjective(w: Wording, t1: Template, u1: string, t2: Template, u2: string)
    requires Render(w, t1, u1) == Render(w, t2, u2)
    ensures t1 == t2 && u1 == u2
  {
    ParseRender(w, t1, u1);
    ParseRender(w, t2, u2);
  }
}
