/** `send_to_discord`: the message posted to the Discord webhook after a launch attempt.
    The environment lookups and the HTTP post are parameters and a returned value. */
module Discord {
  import opened Wrappers

  /** What one call reports: the optional user to mention, the success flag, the text of
      the response or exception, and whether the run goes on afterwards. */
  datatype Notice = Notice(userId: Option<string>, success: bool, response: string, continued: bool)

  /** The one `requests.post` a call makes: the webhook URL and the JSON `content` field. */
  datatype Post = Post(url: string, content: string)

  const ContinueSentence: string := "This error was ignored and we will be continuing as normal."

  /** An unset or empty environment value is false in Python. */
  predicate IsSet(v: Option<string>)
  {
    v.Some? && v.value != []
  }

  /** `<@id>` and a line break, only for a set, non-empty user id. */
  function Ping(userId: Option<string>): string
  {
    if IsSet(userId) then "<@" + userId.value + ">\n" else ""
  }

  /** `str(success)` for a Python bool. */
  function BoolText(b: bool): string
  {
    if b then "True" else "False"
  }

  /** The f-string of line 48. */
  function Content(n: Notice): string
  {
    Ping(n.userId) + Body(n)
  }

  /** Everything after the mention. */
  function Body(n: Notice): string
  {
    Heading(n.success) + Tail(n)
  }

  /** The response, its line break and the sentence when the run continues. */
  function Tail(n: Notice): string
  {
    n.response + "\n" + (if n.continued then ContinueSentence else "")
  }

  /** The success line and the start of the response line. */
  function Heading(success: bool): string
  {
    "Success: " + BoolText(success) + "\nResponse: "
  }

  /** Lines 39-50: no post without a webhook URL; otherwise one post of the rendered notice. */
  function SendToDiscord(webhook: Option<string>, n: Notice): (r: Option<Post>)
    ensures r.None? <==> !IsSet(webhook)
    ensures r.Some? ==> r.value.url == webhook.value && r.value.content == Content(n)
    ensures r.Some? && Mentionable(n) ==> ParseContent(r.value.content) == Some(Canonical(n))
  {
    if !IsSet(webhook) then None
    else
      ParseRendered(n);
      Some(Post(webhook.value, Content(n)))
  }

  /** The notice with an unset-equivalent user id written as `None`: the form a message determines. */
  function Canonical(n: Notice): Notice
  {
    if IsSet(n.userId) then n else n.(userId := None)
  }

  /** A user id a mention can carry back unambiguously: one line of text. */
  predicate Mentionable(n: Notice)
  {
    n.userId.Some? ==> '\n' !in n.userId.value
  }

  /** Index of the first `c` in `s`, if any. */
  function FirstIndex(s: string, c: char): Option<nat>
  {
    if s == [] then None
    else if s[0] == c then Some(0)
    else match FirstIndex(s[1..], c)
      case None => None
      case Some(k) => Some(k + 1)
  }

  lemma {:induction false} FirstIndexSpec(s: string, c: char)
    ensures FirstIndex(s, c).None? <==> c !in s
    ensures FirstIndex(s, c).Some? ==>
      var k := FirstIndex(s, c).value; k < |s| && s[k] == c && c !in s[..k]
  {
    if s != [] && s[0] != c {
      FirstIndexSpec(s[1..], c);
      assert s == [s[0]] + s[1..];
      if FirstIndex(s[1..], c).Some? {
        var k := FirstIndex(s[1..], c).value;
        assert s[..k + 1] == [s[0]] + s[1..][..k];
      }
    }
  }

  /** The mention line and what follows it; `None` for a line that opens with `<@` but is not a mention. */
  function SplitPing(s: string): Option<(Option<string>, string)>
  {
    if |s| >= 2 && s[..2] == "<@" then
      match FirstIndex(s, '\n')
      case None => None
      case Some(j) =>
        if 3 < j < |s| && s[j - 1] == '>' then Some((Some(s[2..j - 1]), s[j + 1..])) else None
    else Some((None, s))
  }

  /** Reads a message back into the notice it renders, or `None` if it renders none. */
  function ParseContent(s: string): Option<Notice>
  {
    match SplitPing(s)
    case None => None
    case Some((userId, rest)) => ParseBody(userId, rest)
  }

  /** The success line, the response, its closing line break and the optional sentence. */
  function ParseBody(userId: Option<string>, rest: string): Option<Notice>
  {
    var t := Heading(true);
    var f := Heading(false);
    if |rest| >= |t| && rest[..|t|] == t then ParseTail(userId, true, rest[|t|..])
    else if |rest| >= |f| && rest[..|f|] == f then ParseTail(userId, false, rest[|f|..])
    else None
  }

  function ParseTail(userId: Option<string>, success: bool, tail: string): Option<Notice>
  {
    var m := |ContinueSentence|;
    if tail != [] && tail[|tail| - 1] == '\n' then
      Some(Notice(userId, success, tail[..|tail| - 1], false))
    else if |tail| > m && tail[|tail| - m - 1..] == "\n" + ContinueSentence then
      Some(Notice(userId, success, tail[..|tail| - m - 1], true))
    else None
  }

  lemma ParseTailOfRendered(userId: Option<string>, success: bool, response: string, continued: bool)
    ensures ParseTail(userId, success, response + "\n" + (if continued then ContinueSentence else ""))
         == Some(Notice(userId, success, response, continued))
  {
    var tail := response + "\n" + (if continued then ContinueSentence else "");
    var m := |ContinueSentence|;
    if continued {
      assert ContinueSentence[m - 1] == '.';
      assert tail[|tail| - 1] == '.';
      assert tail[|tail| - m - 1..] == "\n" + ContinueSentence;
      assert tail[..|tail| - m - 1] == response;
    } else {
      assert tail[..|tail| - 1] == response;
    }
  }

  lemma ParseBodyOfRendered(userId: Option<string>, n: Notice)
    ensures ParseBody(userId, Body(n)) == Some(n.(userId := userId))
  {
    var tail := n.response + "\n" + (if n.continued then ContinueSentence else "");
    ParseTailOfRendered(userId, n.success, n.response, n.continued);
    assert Body(n) == Heading(n.success) + tail;
    ParseBodyAfterHeading(userId, n.success, tail);
  }

  lemma ParseBodyAfterHeading(userId: Option<string>, success: bool, tail: string)
    ensures ParseBody(userId, Heading(success) + tail) == ParseTail(userId, success, tail)
  {
    var p := Heading(success);
    Split(p, tail);
    if !success {
      assert (p + tail)[9] == 'F' != Heading(true)[9];
    }
  }

  /** A concatenation splits back into its parts. */
  lemma Split(p: string, q: string)
    ensures (p + q)[..|p|] == p && (p + q)[|p|..] == q
  {
  }

  lemma SplitPingOfRendered(n: Notice)
    requires Mentionable(n)
    ensures SplitPing(Content(n)) == Some((Canonical(n).userId, Body(n)))
  {
    var body := Body(n);
    assert body[0] == 'S';
    if IsSet(n.userId) {
      SplitMention(n.userId.value, body);
    } else {
      assert Content(n) == body;
    }
  }

  lemma SplitMention(id: string, body: string)
    requires id != [] && '\n' !in id
    ensures SplitPing("<@" + id + ">\n" + body) == Some((Some(id), body))
  {
    var s := "<@" + id + ">\n" + body;
    var j := |id| + 3;
    assert s[..2] == "<@";
    assert s[j] == '\n';
    assert s[..j] == "<@" + id + ">";
    FirstIndexAt(s, '\n', j);
    assert s[2..j - 1] == id;
    assert s[j + 1..] == body;
  }

  /** The first occurrence is found. */
  lemma {:induction false} FirstIndexAt(s: string, c: char, j: nat)
    requires j < |s| && s[j] == c && c !in s[..j]
    ensures FirstIndex(s, c) == Some(j)
  {
    if j > 0 {
      assert s[0] == s[..j][0];
      var t, u := s[1..][..j - 1], s[..j];
      assert c !in t by {
        assert forall i | 0 <= i < j - 1 :: t[i] == u[i + 1];
      }
      FirstIndexAt(s[1..], c, j - 1);
    }
  }

  /** Every rendered message of a one-line user id reads back as its canonical notice. */
  lemma ParseRendered(n: Notice)
    ensures Mentionable(n) ==> ParseContent(Content(n)) == Some(Canonical(n))
  {
    if Mentionable(n) {
      SplitPingOfRendered(n);
      ParseBodyOfRendered(Canonical(n).userId, n);
    }
  }

  /** A message that reads back as a notice is exactly that notice rendered. */
  lemma RenderParsed(s: string)
    ensures ParseContent(s).Some? ==> Content(ParseContent(s).value) == s
  {
    if ParseContent(s).Some? {
      var (userId, rest) := SplitPing(s).value;
      RenderSplitPing(s);
      RenderParsedBody(userId, rest);
    }
  }

  lemma RenderSplitPing(s: string)
    ensures SplitPing(s).Some? ==> Ping(SplitPing(s).value.0) + SplitPing(s).value.1 == s
  {
    if SplitPing(s).Some? {
      var (userId, rest) := SplitPing(s).value;
      if userId.Some? {
        var j := FirstIndex(s, '\n').value;
        FirstIndexSpec(s, '\n');
        assert s == s[..2] + s[2..j - 1] + [s[j - 1]] + [s[j]] + s[j + 1..];
      }
    }
  }

  lemma RenderParsedBody(userId: Option<string>, rest: string)
    ensures ParseBody(userId, rest).Some? ==>
      var n := ParseBody(userId, rest).value; n.userId == userId && Body(n) == rest
  {
    if ParseBody(userId, rest).Some? {
      var t := Heading(true);
      var f := Heading(false);
      var success := |rest| >= |t| && rest[..|t|] == t;
      var p := if success then t else f;
      var tail := rest[|p|..];
      assert ParseBody(userId, rest) == ParseTail(userId, success, tail);
      assert rest == p + tail;
      RenderParsedTail(userId, success, tail);
      var n := ParseTail(userId, success, tail).value;
      assert Body(n) == p + Tail(n);
    }
  }

  lemma RenderParsedTail(userId: Option<string>, success: bool, tail: string)
    ensures ParseTail(userId, success, tail).Some? ==>
      var n := ParseTail(userId, success, tail).value;
      n.userId == userId && n.success == success
      && tail == Tail(n)
  {
  }

  /** The mention is present exactly when a non-empty user id is set. */
  lemma MentionIffUserId(n: Notice)
    ensures |Content(n)| >= 2 && Content(n)[..2] == "<@" <==> IsSet(n.userId)
  {
    if IsSet(n.userId) {
      assert Content(n)[..2] == "<@";
    } else {
      assert Content(n) == Body(n);
      assert Content(n)[0] == 'S';
    }
  }

  /** The message ends in the sentence's full stop exactly when the run continues. */
  lemma EndsWithSentenceIffContinued(n: Notice)
    ensures Content(n)[|Content(n)| - 1] == '.' <==> n.continued
  {
    var c := Content(n);
    if n.continued {
      assert c[|c| - 1] == ContinueSentence[|ContinueSentence| - 1];
    } else {
      assert c[|c| - 1] == '\n';
    }
  }
}
