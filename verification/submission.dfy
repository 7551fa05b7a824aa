/** `POST /api/submit`: which usernames are accepted, how they are cleaned, what the
    caller is told, and the chat link the notification carries. */
module Submission {
  import opened Wrappers
  import opened Sequences
  import opened JsString

  /** The handler's guard passes: the body had a `username`, it is not the empty
      string, and it does not trim to the empty string. Absent is `None`. */
  predicate Accepts(username: Option<string>)
    ensures Accepts(username) <==> username.Some? && !AllWhitespace(username.value)
  {
    username.Some? && username.value != "" &&
    (TrimEmptyIff(username.value); Trim(username.value) != "")
  }

  /** Accepted exactly when the raw string holds some character that is not whitespace. */
  lemma AcceptsIff(username: Option<string>)
    ensures Accepts(username) <==>
              username.Some? && exists i :: 0 <= i < |username.value| && !IsWhitespace(username.value[i])
  {
    if username.Some? {
      TrimEmptyIff(username.value);
    }
  }

  /** `username.replace('@', '').trim()`: the first `@`, wherever it stands, is removed,
      then surrounding whitespace. */
  function Clean(raw: string): (r: string)
    ensures r == [] || (!IsWhitespace(r[0]) && !IsWhitespace(r[|r| - 1]))
  {
    Trim(RemoveFirst(raw, '@'))
  }

  /** Cleaning loses exactly one `@` when there is one, and no other visible character. */
  lemma CleanCounts(raw: string, c: char)
    requires !IsWhitespace(c)
    ensures c != '@' ==> multiset(Clean(raw))[c] == multiset(raw)[c]
    ensures c == '@' ==> multiset(Clean(raw))[c] == if '@' in raw then multiset(raw)[c] - 1 else 0
  {
    RemoveFirstCount(raw, '@');
    TrimKeepsNonWhitespace(RemoveFirst(raw, '@'), c);
    assert '@' in raw <==> multiset(raw)['@'] > 0;
  }

  /** Cleaning an already clean name without `@` changes nothing. */
  lemma {:induction false} CleanFixesCleanNames(raw: string)
    requires '@' !in Clean(raw)
    ensures Clean(Clean(raw)) == Clean(raw)
  {
    var r := Clean(raw);
    assert IndexOf(r, '@') == |r|;
    RemoveFirstSplits(r, '@');
    TrimIdempotent(RemoveFirst(raw, '@'));
  }

  /** The `@` that is removed need not be a leading one, and only the first one goes:
      `"a@b"` cleans to `"ab"` and `"@@x"` to `"@x"`. */
  lemma {:induction false} CleanRemovesFirstAt(a: string, b: string)
    requires '@' !in a
    requires a + b == [] || (!IsWhitespace((a + b)[0]) && !IsWhitespace((a + b)[|a + b| - 1]))
    ensures Clean(a + "@" + b) == a + b
  {
    var s := a + "@" + b;
    RemoveFirstSplits(s, '@');
    assert s[..|a|] == a && s[|a|] == '@';
    assert IndexOf(s, '@') == |a|;
    assert s[|a| + 1..] == b;
    TrimOfTrimmed(a + b);
  }

  /** `"a@b"` cleans to `"ab"`, and `"@@x"` to `"@x"`. */
  lemma CleanExamples()
    ensures Clean("a@b") == "ab" && Clean("@@x") == "@x"
  {
    CleanRemovesFirstAt("a", "b");
    assert "a" + "@" + "b" == "a@b" && "a" + "b" == "ab";
    CleanRemovesFirstAt("", "@x");
    assert "" + "@" + "@x" == "@@x" && "" + "@x" == "@x";
  }

  /** A name without `@` and without surrounding whitespace is accepted as it is. */
  lemma PlainNameIsClean(s: string)
    requires '@' !in s && s != [] && !IsWhitespace(s[0]) && !IsWhitespace(s[|s| - 1])
    ensures Accepts(Some(s)) && Clean(s) == s
  {
    RemoveFirstSplits(s, '@');
    TrimOfTrimmed(s);
  }

  /** Validation looks at the raw string, so `@` with nothing but whitespace around it
      passes the guard and cleans to the empty name; and nothing else does. */
  lemma {:induction false} CleanEmptyIff(raw: string)
    ensures (Accepts(Some(raw)) && Clean(raw) == "") <==>
              exists i :: 0 <= i < |raw| && raw[i] == '@' && AllWhitespace(raw[..i]) && AllWhitespace(raw[i + 1..])
  {
    var i := IndexOf(raw, '@');
    if i < |raw| {
      CleanEmptyAround(raw);
      forall j | 0 <= j < |raw| && raw[j] == '@' && AllWhitespace(raw[..j])
        ensures j == i
      {
        OnlyFirstAt(raw, i, j);
      }
    } else {
      CleanEmptyWithoutAt(raw);
      forall j | 0 <= j < |raw| ensures raw[j] != '@' {
        assert raw[j] in raw;
      }
    }
  }

  /** With an `@` present the guard passes, and the name cleans to empty exactly when
      the first `@` has only whitespace on either side. */
  lemma CleanEmptyAround(raw: string)
    requires '@' in raw
    ensures var i := IndexOf(raw, '@');
            Accepts(Some(raw)) &&
            (Clean(raw) == "" <==> AllWhitespace(raw[..i]) && AllWhitespace(raw[i + 1..]))
  {
    var i := IndexOf(raw, '@');
    RemoveFirstSplits(raw, '@');
    TrimEmptyIff(raw);
    TrimEmptyIff(RemoveFirst(raw, '@'));
    assert !AllWhitespace(raw) by { assert !IsWhitespace(raw[i]); }
    AllWhitespaceConcat(raw[..i], raw[i + 1..]);
  }

  /** Without an `@` cleaning is trimming, which empties only what the guard rejects. */
  lemma CleanEmptyWithoutAt(raw: string)
    requires '@' !in raw
    ensures !(Accepts(Some(raw)) && Clean(raw) == "")
  {
    RemoveFirstSplits(raw, '@');
  }

  /** With only whitespace before it, an `@` is the first one. */
  lemma OnlyFirstAt(raw: string, i: nat, j: nat)
    requires i == IndexOf(raw, '@') && j < |raw| && raw[j] == '@' && AllWhitespace(raw[..j])
    ensures j == i
  {
  }

  /** One `@` between two runs of whitespace is accepted and cleans to the empty name. */
  lemma AtAmidWhitespace(pre: string, post: string)
    requires AllWhitespace(pre) && AllWhitespace(post)
    ensures Accepts(Some(pre + "@" + post)) && Clean(pre + "@" + post) == ""
  {
    var raw := pre + "@" + post;
    assert raw[..|pre|] == pre && raw[|pre|] == '@' && raw[|pre| + 1..] == post;
    CleanEmptyIff(raw);
  }

  /** The quirk on the two smallest inputs: `"@"` and `" @ "` are accepted and clean to `""`. */
  lemma ValidatedBeforeCleaning()
    ensures Accepts(Some("@")) && Clean("@") == ""
    ensures Accepts(Some(" @ ")) && Clean(" @ ") == ""
  {
    AtAmidWhitespace("", "");
    assert "" + "@" + "" == "@";
    AtAmidWhitespace(" ", " ");
    assert " " + "@" + " " == " @ ";
  }

  /** The opening of the success message, up to the cleaned name. */
  const SentPrefix: string := "✅ Заявка @"

  /** What the handler answers. */
  datatype SubmitReply =
    | Rejected              // 400: `{ success: false, message: 'Введите username' }`
    | Sent(username: string) // 200: `{ success: true, message, data: { username, … } }`
    | SendFailed            // 500: `{ success: false, message: 'Ошибка отправки' }`
  {
    /** The HTTP status: 200 exactly for the success reply, 400 exactly for a rejected name. */
    function Status(): (code: nat)
      ensures code == 200 <==> Success()
      ensures code == 400 <==> Rejected?
    {
      match this
      case Rejected => 400
      case Sent(_) => 200
      case SendFailed => 500
    }

    predicate Success() {
      Sent?
    }

    /** The reply's `message`; only the success message starts with `SentPrefix`. */
    function Message(): (m: string)
      ensures (|SentPrefix| <= |m| && m[..|SentPrefix|] == SentPrefix) <==> Sent?
    {
      match this
      case Rejected => var m := "Введите username"; assert m[..|SentPrefix|][0] != SentPrefix[0]; m
      case Sent(u) => SentPrefix + u + " отправлена!"
      case SendFailed => var m := "Ошибка отправки"; assert m[..|SentPrefix|][0] != SentPrefix[0]; m
    }
  }

  /** The reply a successful submission gets names the cleaned user twice: in the
      message after an `@`, and as the data's username. */
  lemma SentMessageNames(u: string)
    ensures Sent(u).Status() == 200 && Sent(u).Success()
    ensures var m := Sent(u).Message(); m[..|SentPrefix|] == SentPrefix && m[|SentPrefix|..][..|u|] == u
  {
    var m := Sent(u).Message();
    var p := SentPrefix;
    assert m == p + u + " отправлена!";
    assert m[|p|..] == u + " отправлена!";
  }

  const TelegramPrefix: string := "https://t.me/"

  /** The "write to" link of the notification: `https://t.me/${username.replace('@', '')}`,
      built from the already cleaned name, so a second `@` goes too. */
  function TelegramLink(username: string): (link: string)
    ensures |TelegramPrefix| <= |link| && link[..|TelegramPrefix|] == TelegramPrefix
    ensures '@' !in username ==> link[|TelegramPrefix|..] == username
  {
    RemoveFirstSplits(username, '@');
    TelegramPrefix + RemoveFirst(username, '@')
  }

  /** After cleaning and the link's own replacement, an `@` survives in the link's
      handle only when the submitted string had three or more. */
  lemma LinkKeepsAtIff(raw: string)
    ensures '@' in TelegramLink(Clean(raw))[|TelegramPrefix|..] <==> multiset(raw)['@'] >= 3
  {
    var clean := Clean(raw);
    var handle := RemoveFirst(clean, '@');
    assert TelegramLink(clean)[|TelegramPrefix|..] == handle;
    CleanCounts(raw, '@');
    RemoveFirstCount(clean, '@');
    assert multiset(handle)['@'] == if '@' in clean then multiset(clean)['@'] - 1 else 0;
  }

}
