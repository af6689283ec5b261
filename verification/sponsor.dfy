/**
 * The sponsor-channel service of xilma/services/sponsor.py: canonicalisation of
 * channel references, the ordered duplicate-free channel list, its join buttons,
 * and the membership check with bounded retries that fails open.
 */
module Sponsor {
  import opened Wrappers
  import opened Texts
  import opened Errors
  import opened Backoff
  import Text

  datatype SponsorChannel = SponsorChannel(raw: string, chatId: string, display: string, url: string)

  /** Why `normalize_channel` raises `ValueError`. */
  datatype Invalid = EmptyInput | InviteLink | InvalidUsername

  /** An inline-keyboard button: a link, or a callback carrying `callback_data`. */
  datatype Button = UrlButton(text: string, url: string) | CallbackButton(caption: TextKey, data: string)

  const HttpsPrefix: string := "https://t.me/"
  const HttpPrefix: string := "http://t.me/"
  const BarePrefix: string := "t.me/"

  /** `username.replace("_", "").isalnum()`, on ASCII. */
  predicate ValidUsername(u: string) {
    Text.IsAlnum(Text.Remove(u, '_'))
  }

  /** The channel whose canonical identity is `@username`. */
  function ChannelFor(username: string): SponsorChannel {
    var handle := "@" + username;
    SponsorChannel(handle, handle, handle, "https://t.me/" + username)
  }

  /** A channel as `normalize_channel` returns it. */
  ghost predicate Canonical(c: SponsorChannel) {
    exists u :: ValidUsername(u) && c == ChannelFor(u)
  }

  /**
   * The two prefix removals of sponsor.py:45-48. `split("t.me/", 1)[1]` on a string
   * that starts with one of the prefixes is the rest after that prefix, because
   * neither "https://" nor "http://" contains "t.me/".
   */
  function AfterPrefixes(cleaned: string): string {
    var s :=
      if Text.StartsWith(cleaned, HttpsPrefix) then cleaned[|HttpsPrefix|..]
      else if Text.StartsWith(cleaned, HttpPrefix) then cleaned[|HttpPrefix|..]
      else cleaned;
    if Text.StartsWith(s, BarePrefix) then s[|BarePrefix|..] else s
  }

  /** A private invite link (`+hash` or `joinchat/hash`) cannot be checked for membership. */
  predicate IsInviteLink(rest: string) {
    Text.StartsWith(rest, "+") || Text.StartsWith(rest, "joinchat/")
  }

  /** The username: one leading `@` removed. */
  function DropAt(rest: string): string {
    if Text.StartsWith(rest, "@") then rest[1..] else rest
  }

  /** `normalize_channel`: a `t.me` URL, `@handle` or bare name becomes `@username`. */
  function NormalizeChannel(raw: string): (r: Result<SponsorChannel, Invalid>)
    ensures r.Ok? ==> Canonical(r.value)
    ensures Text.Strip(raw) == [] <==> r == Err(EmptyInput)
  {
    var cleaned := Text.Strip(raw);
    if cleaned == [] then Err(EmptyInput)
    else
      var rest := AfterPrefixes(cleaned);
      if IsInviteLink(rest) then Err(InviteLink)
      else
        var username := DropAt(rest);
        if !ValidUsername(username) then Err(InvalidUsername)
        else
          assert ("@" + username)[1..] == username;
          Ok(ChannelFor(username))
  }

  predicate UsernameChars(u: string) {
    forall i :: 0 <= i < |u| ==> Text.IsAsciiAlnum(u[i]) || u[i] == '_'
  }

  lemma ValidUsernameChars(u: string)
    requires ValidUsername(u)
    ensures UsernameChars(u) && u != []
  {
    forall i | 0 <= i < |u| ensures Text.IsAsciiAlnum(u[i]) || u[i] == '_' {
      if u[i] != '_' {
        var r := Text.Remove(u, '_');
        assert u[i] in r;
        var k :| 0 <= k < |r| && r[k] == u[i];
      }
    }
    assert Text.Remove(u, '_') != [];
  }

  /** Two strings that differ at position `k` cannot have one as a prefix of the other there. */
  lemma DiffersAt(s: string, p: string, k: nat)
    requires k < |s| && k < |p| && s[k] != p[k]
    ensures !Text.StartsWith(s, p)
  {
    if |p| <= |s| {
      assert s[..|p|][k] == s[k];
    }
  }

  /** A username cannot start with a prefix holding a character outside letters, digits and `_`. */
  lemma NoForeignPrefix(u: string, p: string, k: nat)
    requires UsernameChars(u)
    requires k < |p| && !Text.IsAsciiAlnum(p[k]) && p[k] != '_'
    ensures !Text.StartsWith(u, p)
  {
    if k < |u| {
      DiffersAt(u, p, k);
    }
  }

  lemma CleanForm(p: string, u: string)
    requires Text.NoSpace(p) && Text.NoSpace(u)
    ensures Text.NoSpace(p + u)
  {
    var f := p + u;
    forall i | 0 <= i < |f| ensures !Text.IsSpace(f[i]) {
      if i < |p| {
        assert f[i] == p[i];
      } else {
        assert f[i] == u[i - |p|];
      }
    }
  }

  lemma UsernameNoSpace(u: string)
    requires UsernameChars(u)
    ensures Text.NoSpace(u)
  {
    forall i | 0 <= i < |u| ensures !Text.IsSpace(u[i]) {
      assert Text.IsAsciiAlnum(u[i]) || u[i] == '_';
    }
  }

  /** `normalize_channel` on a stripped reference whose rest is not an invite link. */
  lemma NormalizeVia(raw: string, rest: string, u: string)
    requires Text.NoSpace(raw) && raw != []
    requires AfterPrefixes(raw) == rest && !IsInviteLink(rest) && DropAt(rest) == u && ValidUsername(u)
    ensures NormalizeChannel(raw) == Ok(ChannelFor(u))
  {
    Text.StripNoSpace(raw);
  }

  lemma AfterPrefixesOfUsername(u: string)
    requires UsernameChars(u)
    ensures AfterPrefixes(u) == u && !IsInviteLink(u) && DropAt(u) == u
  {
    NoForeignPrefix(u, HttpsPrefix, 5);
    NoForeignPrefix(u, HttpPrefix, 4);
    NoForeignPrefix(u, BarePrefix, 1);
    NoForeignPrefix(u, "+", 0);
    NoForeignPrefix(u, "joinchat/", 8);
    NoForeignPrefix(u, "@", 0);
  }

  lemma AfterPrefixesOfUrl(p: string, u: string)
    requires p == HttpsPrefix || p == HttpPrefix || p == BarePrefix
    requires UsernameChars(u)
    ensures AfterPrefixes(p + u) == u
  {
    AfterPrefixesOfUsername(u);
    var f := p + u;
    assert f[..|p|] == p && f[|p|..] == u;
    if p == HttpsPrefix {
      DiffersAt(f, HttpPrefix, 4);
    } else if p == BarePrefix {
      DiffersAt(f, HttpsPrefix, 0);
      DiffersAt(f, HttpPrefix, 0);
    }
  }

  lemma AfterPrefixesOfHandle(u: string)
    ensures AfterPrefixes("@" + u) == "@" + u && !IsInviteLink("@" + u) && DropAt("@" + u) == u
  {
    var f := "@" + u;
    DiffersAt(f, HttpsPrefix, 0);
    DiffersAt(f, HttpPrefix, 0);
    DiffersAt(f, BarePrefix, 0);
    DiffersAt(f, "+", 0);
    DiffersAt(f, "joinchat/", 0);
    assert f[..1] == "@";
    assert f[1..] == u;
  }

  lemma PrefixesClean()
    ensures Text.NoSpace(HttpsPrefix) && Text.NoSpace(HttpPrefix) && Text.NoSpace(BarePrefix)
  {
  }

  lemma AtClean(p: string)
    requires |p| == 1 && p[0] == '@'
    ensures Text.NoSpace(p)
  {
  }

  /** A link with one of the accepted prefixes normalises to the channel it names. */
  lemma NormalizeUrl(p: string, u: string)
    requires p == HttpsPrefix || p == HttpPrefix || p == BarePrefix
    requires ValidUsername(u) && Text.NoSpace(p)
    ensures NormalizeChannel(p + u) == Ok(ChannelFor(u))
  {
    ValidUsernameChars(u);
    UsernameNoSpace(u);
    CleanForm(p, u);
    AfterPrefixesOfUrl(p, u);
    AfterPrefixesOfUsername(u);
    NormalizeVia(p + u, u, u);
  }

  /** Every accepted spelling of a channel normalises to the same `@username` channel. */
  lemma NormalizeSpellings(u: string)
    requires ValidUsername(u)
    ensures NormalizeChannel("https://t.me/" + u) == Ok(ChannelFor(u))
    ensures NormalizeChannel("http://t.me/" + u) == Ok(ChannelFor(u))
    ensures NormalizeChannel("t.me/" + u) == Ok(ChannelFor(u))
    ensures NormalizeChannel("@" + u) == Ok(ChannelFor(u))
    ensures NormalizeChannel(u) == Ok(ChannelFor(u))
  {
    ValidUsernameChars(u);
    AfterPrefixesOfUsername(u);
    PrefixesClean();
    NormalizeUrl(HttpsPrefix, u);
    NormalizeUrl(HttpPrefix, u);
    NormalizeUrl(BarePrefix, u);
    UsernameNoSpace(u);
    CleanForm([], u);
    assert [] + u == u;
    NormalizeVia(u, u, u);
    AtClean("@");
    CleanForm("@", u);
    AfterPrefixesOfHandle(u);
    NormalizeVia("@" + u, "@" + u, u);
  }

  /** Normalising a normalised channel's label gives the same channel back. */
  lemma NormalizeIdempotent(raw: string)
    requires NormalizeChannel(raw).Ok?
    ensures NormalizeChannel(NormalizeChannel(raw).value.display) == NormalizeChannel(raw)
  {
    var c := NormalizeChannel(raw).value;
    var u :| ValidUsername(u) && c == ChannelFor(u);
    NormalizeSpellings(u);
  }

  /** `normalize_channel` on a stripped reference whose rest is an invite link. */
  lemma InviteVia(raw: string, rest: string)
    requires Text.NoSpace(raw) && raw != []
    requires AfterPrefixes(raw) == rest && IsInviteLink(rest)
    ensures NormalizeChannel(raw) == Err(InviteLink)
  {
    Text.StripNoSpace(raw);
  }

  /** `normalize_channel` on a stripped reference whose username is not acceptable. */
  lemma RejectVia(raw: string, rest: string, u: string)
    requires Text.NoSpace(raw) && raw != []
    requires AfterPrefixes(raw) == rest && !IsInviteLink(rest) && DropAt(rest) == u && !ValidUsername(u)
    ensures NormalizeChannel(raw) == Err(InvalidUsername)
  {
    Text.StripNoSpace(raw);
  }

  lemma PlusInvite(hash: string)
    requires Text.NoSpace(hash)
    ensures Text.NoSpace("+" + hash)
    ensures AfterPrefixes("+" + hash) == "+" + hash && IsInviteLink("+" + hash)
  {
    var plus := "+" + hash;
    CleanForm("+", hash);
    DiffersAt(plus, HttpsPrefix, 0);
    DiffersAt(plus, HttpPrefix, 0);
    DiffersAt(plus, BarePrefix, 0);
    assert plus[..1] == "+";
  }

  lemma JoinchatInvite(hash: string)
    requires Text.NoSpace(hash)
    ensures Text.NoSpace("joinchat/" + hash)
    ensures AfterPrefixes("joinchat/" + hash) == "joinchat/" + hash && IsInviteLink("joinchat/" + hash)
  {
    var join := "joinchat/" + hash;
    CleanForm("joinchat/", hash);
    DiffersAt(join, HttpsPrefix, 0);
    DiffersAt(join, HttpPrefix, 0);
    DiffersAt(join, BarePrefix, 0);
    assert join[..9] == "joinchat/";
  }

  lemma UrlInvite(hash: string)
    requires Text.NoSpace(hash)
    ensures Text.NoSpace("https://t.me/+" + hash)
    ensures AfterPrefixes("https://t.me/+" + hash) == "+" + hash
  {
    var plus := "+" + hash;
    var url := "https://t.me/+" + hash;
    assert url == HttpsPrefix + plus;
    CleanForm("https://t.me/+", hash);
    assert url[..|HttpsPrefix|] == HttpsPrefix && url[|HttpsPrefix|..] == plus;
    DiffersAt(plus, BarePrefix, 0);
  }

  /** A bare `+hash` invite link is refused. */
  lemma NormalizeRejectsPlusInvite(hash: string)
    requires Text.NoSpace(hash)
    ensures NormalizeChannel("+" + hash) == Err(InviteLink)
  {
    PlusInvite(hash);
    InviteVia("+" + hash, "+" + hash);
  }

  /** A bare `joinchat/hash` invite link is refused. */
  lemma NormalizeRejectsJoinchatInvite(hash: string)
    requires Text.NoSpace(hash)
    ensures NormalizeChannel("joinchat/" + hash) == Err(InviteLink)
  {
    JoinchatInvite(hash);
    InviteVia("joinchat/" + hash, "joinchat/" + hash);
  }

  /** An invite link behind the `https://t.me/` prefix is refused too. */
  lemma NormalizeRejectsUrlInvite(hash: string)
    requires Text.NoSpace(hash)
    ensures NormalizeChannel("https://t.me/+" + hash) == Err(InviteLink)
  {
    UrlInvite(hash);
    PlusInvite(hash);
    InviteVia("https://t.me/+" + hash, "+" + hash);
  }

  /**
   * The refusals of `normalize_channel`, for every input: an invite link exactly when
   * the stripped reference, after the `t.me` prefixes, starts with `+` or `joinchat/`;
   * an invalid username exactly when it is no invite link and the name after one
   * leading `@` is not alphanumeric once underscores are removed.
   */
  lemma NormalizeRefusals(raw: string)
    ensures var cleaned := Text.Strip(raw);
      && (NormalizeChannel(raw) == Err(InviteLink) <==> cleaned != [] && IsInviteLink(AfterPrefixes(cleaned)))
      && (NormalizeChannel(raw) == Err(InvalidUsername) <==>
            cleaned != [] && !IsInviteLink(AfterPrefixes(cleaned)) && !ValidUsername(DropAt(AfterPrefixes(cleaned))))
  {
  }

  /** A character other than an ASCII letter, digit or `_` makes a name invalid. */
  lemma ForeignCharInvalid(u: string, i: nat)
    requires i < |u| && !Text.IsAsciiAlnum(u[i]) && u[i] != '_'
    ensures !ValidUsername(u)
  {
    assert u[i] in Text.Remove(u, '_');
  }

  /** `@foo-bar`, `@a.b` and every other handle with a foreign character is an invalid username. */
  lemma NormalizeRejectsForeignChar(u: string, i: nat)
    requires Text.NoSpace(u) && i < |u| && !Text.IsAsciiAlnum(u[i]) && u[i] != '_'
    ensures NormalizeChannel("@" + u) == Err(InvalidUsername)
  {
    ForeignCharInvalid(u, i);
    AtClean("@");
    CleanForm("@", u);
    AfterPrefixesOfHandle(u);
    RejectVia("@" + u, "@" + u, u);
  }

  /** A blank reference is refused as empty. */
  lemma NormalizeRejectsBlank()
    ensures NormalizeChannel(" \t ") == Err(EmptyInput)
  {
  }

  lemma {:induction false} Underscores(u: string)
    requires forall i :: 0 <= i < |u| ==> u[i] == '_'
    ensures Text.Remove(u, '_') == []
    ensures !ValidUsername(u)
  {
    if u != [] {
      Underscores(u[1..]);
    }
  }

  /** A username with nothing alphanumeric in it (a lone `@`, only underscores) is refused. */
  lemma NormalizeRejectsEmptyUsername(underscores: string)
    requires underscores != [] && forall i :: 0 <= i < |underscores| ==> underscores[i] == '_'
    ensures NormalizeChannel("@") == Err(InvalidUsername)
    ensures NormalizeChannel(underscores) == Err(InvalidUsername)
  {
    DiffersAt("@", HttpsPrefix, 0);
    DiffersAt("@", HttpPrefix, 0);
    DiffersAt("@", BarePrefix, 0);
    DiffersAt("@", "+", 0);
    DiffersAt("@", "joinchat/", 0);
    assert "@"[..1] == "@";
    Underscores([]);
    RejectVia("@", "@", []);
    Underscores(underscores);
    assert UsernameChars(underscores);
    AfterPrefixesOfUsername(underscores);
    UsernameNoSpace(underscores);
    CleanForm([], underscores);
    assert [] + underscores == underscores;
    RejectVia(underscores, underscores, underscores);
  }

  // ---------------------------------------------------------------------------
  // Channel lists

  function ChatIds(cs: seq<SponsorChannel>): set<string> {
    set c | c in cs :: c.chatId
  }

  lemma ChatIdsAppend(a: seq<SponsorChannel>, b: seq<SponsorChannel>)
    ensures ChatIds(a + b) == ChatIds(a) + ChatIds(b)
  {
    assert forall c :: c in a + b <==> c in a || c in b;
  }

  predicate UniqueChatIds(cs: seq<SponsorChannel>) {
    forall i, j :: 0 <= i < j < |cs| ==> cs[i].chatId != cs[j].chatId
  }

  /** The entries whose chat id differs from `id`, in their order (remove_channel's comprehension). */
  function Without(cs: seq<SponsorChannel>, id: string): (r: seq<SponsorChannel>)
    ensures ChatIds(r) == ChatIds(cs) - {id}
    ensures |r| <= |cs|
    ensures forall c :: c in r ==> c in cs
  {
    if cs == [] then []
    else
      var head := if cs[0].chatId == id then [] else [cs[0]];
      ChatIdsAppend(head, Without(cs[1..], id));
      assert ChatIds(cs) == {cs[0].chatId} + ChatIds(cs[1..]) by {
        ChatIdsAppend([cs[0]], cs[1..]);
        assert [cs[0]] + cs[1..] == cs;
      }
      head + Without(cs[1..], id)
  }

  /** Filtering keeps a list duplicate-free, and removes something exactly when the id was present. */
  lemma WithoutFacts(cs: seq<SponsorChannel>, id: string)
    ensures UniqueChatIds(cs) ==> UniqueChatIds(Without(cs, id))
    ensures |Without(cs, id)| == |cs| <==> id !in ChatIds(cs)
    ensures id !in ChatIds(cs) ==> Without(cs, id) == cs
  {
    if UniqueChatIds(cs) {
      WithoutUnique(cs, id);
    }
    WithoutKeeps(cs, id);
  }

  lemma {:induction false} WithoutUnique(cs: seq<SponsorChannel>, id: string)
    requires UniqueChatIds(cs)
    ensures UniqueChatIds(Without(cs, id))
  {
    if cs != [] {
      var t := cs[1..];
      assert UniqueChatIds(t);
      WithoutUnique(t, id);
      if cs[0].chatId != id {
        forall c | c in t ensures c.chatId != cs[0].chatId {
          var j :| 0 <= j < |t| && t[j] == c;
          assert cs[j + 1] == c;
        }
        PrependUnique(cs[0], Without(t, id));
      }
    }
  }

  lemma {:induction false} WithoutKeeps(cs: seq<SponsorChannel>, id: string)
    ensures |Without(cs, id)| == |cs| <==> id !in ChatIds(cs)
    ensures id !in ChatIds(cs) ==> Without(cs, id) == cs
  {
    if cs != [] {
      var t := cs[1..];
      WithoutKeeps(t, id);
      ChatIdsCons(cs);
      var head := if cs[0].chatId == id then [] else [cs[0]];
      assert Without(cs, id) == head + Without(t, id);
      if id !in ChatIds(cs) {
        assert cs == [cs[0]] + t;
      }
    }
  }

  lemma PrependUnique(c: SponsorChannel, cs: seq<SponsorChannel>)
    requires UniqueChatIds(cs) && c.chatId !in ChatIds(cs)
    ensures UniqueChatIds([c] + cs)
  {
    var s := [c] + cs;
    forall i, j | 0 <= i < j < |s| ensures s[i].chatId != s[j].chatId {
      if i == 0 {
        assert s[j] in cs;
      } else {
        assert s[i] == cs[i - 1] && s[j] == cs[j - 1];
      }
    }
  }

  lemma AppendUnique(cs: seq<SponsorChannel>, c: SponsorChannel)
    requires UniqueChatIds(cs) && c.chatId !in ChatIds(cs)
    ensures UniqueChatIds(cs + [c])
    ensures ChatIds(cs + [c]) == ChatIds(cs) + {c.chatId}
  {
    var s := cs + [c];
    forall i, j | 0 <= i < j < |s| ensures s[i].chatId != s[j].chatId {
      if j == |cs| {
        assert s[i] in cs;
      }
    }
    assert forall x :: x in s <==> x in cs || x == c;
  }

  /** Keep-the-first de-duplication by chat id, stated front to back. */
  function FirstOccurrences(cs: seq<SponsorChannel>): (r: seq<SponsorChannel>)
    decreases |cs|
  {
    if cs == [] then [] else [cs[0]] + FirstOccurrences(Without(cs[1..], cs[0].chatId))
  }

  lemma {:induction false} WithoutAppend(cs: seq<SponsorChannel>, c: SponsorChannel, id: string)
    ensures Without(cs + [c], id) == Without(cs, id) + (if c.chatId == id then [] else [c])
  {
    var tail := if c.chatId == id then [] else [c];
    if cs == [] {
      assert [] + [c] == [c];
      assert [c][1..] == [];
      assert Without([c], id) == tail + [];
    } else {
      var head := if cs[0].chatId == id then [] else [cs[0]];
      assert (cs + [c])[0] == cs[0] && (cs + [c])[1..] == cs[1..] + [c];
      assert Without(cs + [c], id) == head + Without(cs[1..] + [c], id);
      WithoutAppend(cs[1..], c, id);
      ConcatAssoc(head, Without(cs[1..], id), tail);
    }
  }

  lemma ConcatAssoc(a: seq<SponsorChannel>, b: seq<SponsorChannel>, c: seq<SponsorChannel>)
    ensures a + (b + c) == a + b + c
  {
  }

  /** Appending to the input of the front-to-back de-duplication, as the loop of `_normalize_channels` does. */
  lemma {:induction false} FirstOccurrencesSnoc(cs: seq<SponsorChannel>, c: SponsorChannel)
    ensures FirstOccurrences(cs + [c])
         == if c.chatId in ChatIds(cs) then FirstOccurrences(cs) else FirstOccurrences(cs) + [c]
    decreases |cs|
  {
    if cs == [] {
      assert [] + [c] == [c];
      assert [c][1..] == [];
      assert FirstOccurrences([c]) == [c] + FirstOccurrences([]);
    } else {
      var h, t := cs[0], cs[1..];
      var w := Without(t, h.chatId);
      assert (cs + [c])[0] == h && (cs + [c])[1..] == t + [c];
      assert FirstOccurrences(cs + [c]) == [h] + FirstOccurrences(Without(t + [c], h.chatId));
      assert FirstOccurrences(cs) == [h] + FirstOccurrences(w);
      WithoutAppend(t, c, h.chatId);
      ChatIdsCons(cs);
      if c.chatId == h.chatId {
        assert w + [] == w;
      } else {
        FirstOccurrencesSnoc(w, c);
        ConsSnoc(h, FirstOccurrences(w), c);
      }
    }
  }

  lemma ConsSnoc(h: SponsorChannel, cs: seq<SponsorChannel>, c: SponsorChannel)
    ensures [h] + (cs + [c]) == [h] + cs + [c]
  {
  }

  lemma ChatIdsCons(cs: seq<SponsorChannel>)
    requires cs != []
    ensures ChatIds(cs) == {cs[0].chatId} + ChatIds(cs[1..])
  {
    ChatIdsAppend([cs[0]], cs[1..]);
    assert [cs[0]] + cs[1..] == cs;
  }

  /** The normaliser's outcome for every input, in order. */
  function Results(items: seq<string>): (rs: seq<Result<SponsorChannel, Invalid>>)
    ensures |rs| == |items| && forall i :: 0 <= i < |items| ==> rs[i] == NormalizeChannel(items[i])
  {
    seq(|items|, i requires 0 <= i < |items| => NormalizeChannel(items[i]))
  }

  predicate AllOk(rs: seq<Result<SponsorChannel, Invalid>>) {
    forall i :: 0 <= i < |rs| ==> rs[i].Ok?
  }

  function Values(rs: seq<Result<SponsorChannel, Invalid>>): (cs: seq<SponsorChannel>)
    requires AllOk(rs)
    ensures |cs| == |rs| && forall i :: 0 <= i < |rs| ==> rs[i] == Ok(cs[i])
  {
    seq(|rs|, i requires 0 <= i < |rs| && AllOk(rs) => rs[i].value)
  }

  /**
   * The loop of `_normalize_channels` over normaliser outcomes: the first failure
   * raises; a channel whose chat id is already listed is skipped; any other is appended.
   */
  function Collect(rs: seq<Result<SponsorChannel, Invalid>>): (r: Result<seq<SponsorChannel>, Exception>)
    ensures r.Err? ==> r.error == UserVisibleError(SponsorInvalid)
    ensures r.Ok? ==> UniqueChatIds(r.value) && forall c :: c in r.value ==> Ok(c) in rs
  {
    if rs == [] then Ok([])
    else
      match Collect(rs[..|rs| - 1])
      case Err(e) => Err(e)
      case Ok(cs) =>
        match rs[|rs| - 1]
        case Err(_) => Err(UserVisibleError(SponsorInvalid))
        case Ok(c) =>
          assert forall x :: x in rs[..|rs| - 1] ==> x in rs;
          if c.chatId in ChatIds(cs) then Ok(cs)
          else
            AppendUnique(cs, c);
            Ok(cs + [c])
  }

  /**
   * `_normalize_channels` fails exactly when some outcome is a failure; otherwise it
   * returns the first occurrence of every chat id, in order of first appearance.
   */
  lemma CollectMeaning(rs: seq<Result<SponsorChannel, Invalid>>)
    ensures Collect(rs).Err? <==> !AllOk(rs)
    ensures AllOk(rs) ==> Collect(rs) == Ok(FirstOccurrences(Values(rs)))
  {
    CollectFails(rs);
    if AllOk(rs) {
      CollectValues(rs);
    }
  }

  /** The loop raises exactly when some outcome is a failure. */
  lemma {:induction false} CollectFails(rs: seq<Result<SponsorChannel, Invalid>>)
    ensures Collect(rs).Err? <==> !AllOk(rs)
  {
    if rs != [] {
      var init := rs[..|rs| - 1];
      CollectFails(init);
      assert AllOk(rs) <==> AllOk(init) && rs[|rs| - 1].Ok? by {
        assert forall i :: 0 <= i < |init| ==> init[i] == rs[i];
      }
    }
  }

  /** Without a failure, the loop keeps the first occurrence of every chat id. */
  lemma {:induction false} CollectValues(rs: seq<Result<SponsorChannel, Invalid>>)
    requires AllOk(rs)
    ensures Collect(rs) == Ok(FirstOccurrences(Values(rs)))
  {
    if rs != [] {
      var init, c := rs[..|rs| - 1], rs[|rs| - 1].value;
      ValuesSnoc(rs);
      CollectValues(init);
      var vs := Values(init);
      FirstOccurrencesSnoc(vs, c);
      FirstOccurrencesIds(vs);
      CollectSnoc(rs, FirstOccurrences(vs), c);
    }
  }

  lemma ValuesSnoc(rs: seq<Result<SponsorChannel, Invalid>>)
    requires AllOk(rs) && rs != []
    ensures AllOk(rs[..|rs| - 1]) && Values(rs) == Values(rs[..|rs| - 1]) + [rs[|rs| - 1].value]
  {
    var init := rs[..|rs| - 1];
    assert forall i :: 0 <= i < |init| ==> init[i] == rs[i];
  }

  /** One step of the loop of `_normalize_channels`, after an accepted channel. */
  lemma CollectSnoc(rs: seq<Result<SponsorChannel, Invalid>>, cs: seq<SponsorChannel>, c: SponsorChannel)
    requires rs != [] && Collect(rs[..|rs| - 1]) == Ok(cs) && rs[|rs| - 1] == Ok(c)
    ensures Collect(rs) == if c.chatId in ChatIds(cs) then Ok(cs) else Ok(cs + [c])
  {
  }

  lemma {:induction false} FirstOccurrencesIds(cs: seq<SponsorChannel>)
    ensures ChatIds(FirstOccurrences(cs)) == ChatIds(cs)
    decreases |cs|
  {
    if cs != [] {
      var w := Without(cs[1..], cs[0].chatId);
      FirstOccurrencesIds(w);
      ChatIdsCons(cs);
      assert FirstOccurrences(cs) == [cs[0]] + FirstOccurrences(w);
      ChatIdsAppend([cs[0]], FirstOccurrences(w));
    }
  }

  /** What `_normalize_channels` computes for a list of raw references. */
  function NormalizedList(items: seq<string>): (r: Result<seq<SponsorChannel>, Exception>)
    ensures r.Err? ==> r.error == UserVisibleError(SponsorInvalid)
    ensures r.Ok? ==> UniqueChatIds(r.value) && forall c :: c in r.value ==> Canonical(c)
  {
    var rs := Results(items);
    var r := Collect(rs);
    assert r.Ok? ==> forall c :: c in r.value ==> Canonical(c) by {
      if r.Ok? {
        forall c | c in r.value ensures Canonical(c) {
          var i :| 0 <= i < |rs| && rs[i] == Ok(c);
        }
      }
    }
    r
  }

  predicate AllValid(items: seq<string>) {
    forall i :: 0 <= i < |items| ==> NormalizeChannel(items[i]).Ok?
  }

  /**
   * `_normalize_channels` raises exactly when some item is invalid; otherwise it keeps
   * the first channel of every chat id, in order of first appearance.
   */
  lemma NormalizedListMeaning(items: seq<string>)
    ensures NormalizedList(items).Err? <==> !AllValid(items)
    ensures AllValid(items) ==> NormalizedList(items) == Ok(FirstOccurrences(Values(Results(items))))
  {
    var rs := Results(items);
    CollectMeaning(rs);
    assert AllOk(rs) <==> AllValid(items);
  }

  /** Listing the same channel twice, in any two spellings, lists it once. */
  lemma NormalizedListDuplicate(a: string, b: string)
    requires NormalizeChannel(a).Ok? && NormalizeChannel(b) == NormalizeChannel(a)
    ensures NormalizedList([a, b]) == Ok([NormalizeChannel(a).value])
  {
    var rs := Results([a, b]);
    assert rs == [rs[0], rs[0]];
    CollectRepeated(NormalizeChannel(a).value);
  }

  lemma CollectRepeated(c: SponsorChannel)
    ensures Collect([Ok(c), Ok(c)]) == Ok([c])
  {
    var rs: seq<Result<SponsorChannel, Invalid>> := [Ok(c), Ok(c)];
    assert rs[..1] == [Ok(c)];
    var one := rs[..1];
    assert one[..0] == [];
    assert ChatIds([]) == {};
    assert [] + [c] == [c];
    assert Collect(one) == Ok([c]);
    assert c in [c];
    assert c.chatId in ChatIds([c]);
  }

  /** `parse_channels_csv`. */
  function ParseChannelsCsv(rawCsv: string): Result<seq<SponsorChannel>, Exception> {
    NormalizedList(Text.CsvItems(rawCsv))
  }

  /** A blank CSV item is dropped: it neither fails the parse nor adds a channel. */
  lemma ParseChannelsCsvSkipsBlank(a: string, blank: string)
    requires ',' !in blank && Text.Strip(blank) == []
    ensures ParseChannelsCsv(a + [','] + blank) == ParseChannelsCsv(a)
  {
    Text.CsvItemsAppend(a, blank);
    Text.CsvItemsSingle(blank);
    assert Text.CsvItems(a) + [] == Text.CsvItems(a);
  }

  /** The `_normalize_channels` loop: an invalid item fails the whole call. */
  method NormalizeChannels(rawItems: seq<string>) returns (r: Result<seq<SponsorChannel>, Exception>)
    ensures r == NormalizedList(rawItems)
  {
    ghost var rs := Results(rawItems);
    var channels: seq<SponsorChannel> := [];
    for i := 0 to |rawItems|
      invariant Collect(rs[..i]) == Ok(channels)
    {
      var normalized := NormalizeChannel(rawItems[i]);
      if normalized.Err? {
        CollectFails(rs);
        assert rs[i].Err?;
        return Err(UserVisibleError(SponsorInvalid));
      }
      var channel := normalized.value;
      assert rs[..i + 1][..i] == rs[..i] && rs[..i + 1][i] == Ok(channel);
      CollectSnoc(rs[..i + 1], channels, channel);
      if channel.chatId !in ChatIds(channels) {
        channels := channels + [channel];
      }
    }
    assert rs[..|rawItems|] == rs;
    r := Ok(channels);
  }

  // ---------------------------------------------------------------------------
  // Membership lookups

  /** One answer of `bot.get_chat_member`: a member status, or a `TelegramError`. */
  datatype Lookup = Status(status: string) | TelegramError

  /** The answer to lookup number `k`; a lookup past the scripted answers fails. */
  function LookupAt(lookups: seq<Lookup>, k: nat): Lookup {
    if k < |lookups| then lookups[k] else TelegramError
  }

  const MemberStatuses: set<string> := {"member", "administrator", "creator"}

  /** What the retries for one channel ended with. */
  datatype Verdict = Answered(status: string) | Unreachable

  datatype LookupRun = LookupRun(verdict: Verdict, calls: nat, delays: seq<real>)

  /** The retry loop for one channel, from attempt `attempt` on; lookups start at index `base`. */
  function LookupFrom(retries: nat, backoff: real, lookups: seq<Lookup>, base: nat, attempt: nat): (r: LookupRun)
    requires attempt <= retries
    decreases retries - attempt
  {
    match LookupAt(lookups, base + attempt)
    case Status(s) => LookupRun(Answered(s), attempt + 1, [])
    case TelegramError =>
      if attempt < retries then
        var rest := LookupFrom(retries, backoff, lookups, base, attempt + 1);
        rest.(delays := [Delay(backoff, attempt)] + rest.delays)
      else LookupRun(Unreachable, attempt + 1, [])
  }

  /**
   * One channel's lookups: between 1 and `retries + 1` of them, with the doubling
   * pauses between them; the channel is unreachable exactly when every one of the
   * `retries + 1` lookups failed, and otherwise the verdict is the first status.
   */
  lemma LookupRunMeaning(retries: nat, backoff: real, lookups: seq<Lookup>, base: nat, attempt: nat)
    requires attempt <= retries
    requires forall k :: base <= k < base + attempt ==> LookupAt(lookups, k) == TelegramError
    ensures var r := LookupFrom(retries, backoff, lookups, base, attempt);
      && attempt < r.calls <= retries + 1
      && r.delays == Delays(backoff, r.calls - 1)[attempt..]
      && (forall k :: base <= k < base + r.calls - 1 ==> LookupAt(lookups, k) == TelegramError)
      && (r.verdict == Unreachable <==> r.calls == retries + 1 && LookupAt(lookups, base + retries) == TelegramError)
      && (r.verdict.Answered? ==> LookupAt(lookups, base + r.calls - 1) == Status(r.verdict.status))
  {
    var r := LookupFrom(retries, backoff, lookups, base, attempt);
    LookupCalls(retries, backoff, lookups, base, attempt);
    LookupPauses(retries, backoff, lookups, base, attempt);
    LookupVerdict(retries, backoff, lookups, base, attempt);
    var all := Delays(backoff, r.calls - 1);
    assert r.delays == all[attempt..];
  }

  /** The pauses of one channel's retries: one after each failed lookup but the last, doubling. */
  lemma {:induction false} LookupPauses(retries: nat, backoff: real, lookups: seq<Lookup>, base: nat, attempt: nat)
    requires attempt <= retries
    ensures var r := LookupFrom(retries, backoff, lookups, base, attempt);
      && attempt + |r.delays| + 1 == r.calls
      && (forall j :: 0 <= j < |r.delays| ==> r.delays[j] == Delay(backoff, attempt + j))
    decreases retries - attempt
  {
    if LookupAt(lookups, base + attempt) == TelegramError && attempt < retries {
      LookupPauses(retries, backoff, lookups, base, attempt + 1);
      var r, rest := LookupFrom(retries, backoff, lookups, base, attempt), LookupFrom(retries, backoff, lookups, base, attempt + 1);
      assert r.calls == rest.calls && r.delays == [Delay(backoff, attempt)] + rest.delays;
      forall j | 0 < j < |r.delays| ensures r.delays[j] == Delay(backoff, attempt + j) {
        assert r.delays[j] == rest.delays[j - 1];
      }
    }
  }

  /** Which lookups failed before the verdict, and what the verdict says about the last one. */
  lemma {:induction false} LookupVerdict(retries: nat, backoff: real, lookups: seq<Lookup>, base: nat, attempt: nat)
    requires attempt <= retries
    requires forall k :: base <= k < base + attempt ==> LookupAt(lookups, k) == TelegramError
    ensures var r := LookupFrom(retries, backoff, lookups, base, attempt);
      && r.calls >= 1
      && (forall k :: base <= k < base + r.calls - 1 ==> LookupAt(lookups, k) == TelegramError)
      && (r.verdict == Unreachable <==> r.calls == retries + 1 && LookupAt(lookups, base + retries) == TelegramError)
      && (r.verdict.Answered? ==> LookupAt(lookups, base + r.calls - 1) == Status(r.verdict.status))
    decreases retries - attempt
  {
    if LookupAt(lookups, base + attempt) == TelegramError && attempt < retries {
      LookupVerdict(retries, backoff, lookups, base, attempt + 1);
    }
  }

  lemma {:induction false} LookupCalls(retries: nat, backoff: real, lookups: seq<Lookup>, base: nat, attempt: nat)
    requires attempt <= retries
    ensures attempt < LookupFrom(retries, backoff, lookups, base, attempt).calls <= retries + 1
    decreases retries - attempt
  {
    if LookupAt(lookups, base + attempt) == TelegramError && attempt < retries {
      LookupCalls(retries, backoff, lookups, base, attempt + 1);
    }
  }

  lemma MulStep(n: nat, k: nat)
    ensures (1 + n) * k == k + n * k
  {
  }

  datatype MemberCheck = MemberCheck(member: bool, verdicts: seq<Verdict>, queried: seq<string>, delays: seq<real>)

  /** `is_member` from channel `i` on, with `base` lookups already made. */
  function MembershipFrom(channels: seq<SponsorChannel>, retries: nat, backoff: real, lookups: seq<Lookup>, i: nat, base: nat): (r: MemberCheck)
    requires i <= |channels|
    decreases |channels| - i
  {
    if i == |channels| then MemberCheck(true, [], [], [])
    else
      var run := LookupFrom(retries, backoff, lookups, base, 0);
      var asked := Text.Repeat(channels[i].chatId, run.calls);
      match run.verdict
      case Unreachable => MemberCheck(true, [Unreachable], asked, run.delays)
      case Answered(s) =>
        if s !in MemberStatuses then MemberCheck(false, [run.verdict], asked, run.delays)
        else
          var rest := MembershipFrom(channels, retries, backoff, lookups, i + 1, base + run.calls);
          MemberCheck(rest.member, [run.verdict] + rest.verdicts, asked + rest.queried, run.delays + rest.delays)
  }

  function Membership(channels: seq<SponsorChannel>, retries: nat, backoff: real, lookups: seq<Lookup>): MemberCheck {
    MembershipFrom(channels, retries, backoff, lookups, 0, 0)
  }

  /**
   * One channel of `is_member`, after the lookups and pauses already recorded:
   * the channel's run either decides the check or hands over to the next channel.
   */
  lemma MembershipFromResumed(channels: seq<SponsorChannel>, retries: nat, backoff: real, lookups: seq<Lookup>,
                              i: nat, base: nat, queried: seq<string>, delays: seq<real>)
    requires i < |channels|
    ensures var run := LookupFrom(retries, backoff, lookups, base, 0);
      var m := MembershipFrom(channels, retries, backoff, lookups, i, base);
      var q, d := queried + Text.Repeat(channels[i].chatId, run.calls), delays + run.delays;
      && (run.verdict == Unreachable ==> m.member && queried + m.queried == q && delays + m.delays == d)
      && (run.verdict.Answered? && run.verdict.status !in MemberStatuses ==>
            !m.member && queried + m.queried == q && delays + m.delays == d)
      && (run.verdict.Answered? && run.verdict.status in MemberStatuses ==>
            var rest := MembershipFrom(channels, retries, backoff, lookups, i + 1, base + run.calls);
            m.member == rest.member && queried + m.queried == q + rest.queried && delays + m.delays == d + rest.delays)
  {
    var run := LookupFrom(retries, backoff, lookups, base, 0);
    var asked := Text.Repeat(channels[i].chatId, run.calls);
    if run.verdict.Answered? && run.verdict.status in MemberStatuses {
      var rest := MembershipFrom(channels, retries, backoff, lookups, i + 1, base + run.calls);
      assert queried + (asked + rest.queried) == queried + asked + rest.queried;
      assert delays + (run.delays + rest.delays) == delays + run.delays + rest.delays;
    }
  }

  predicate Satisfies(v: Verdict) {
    v.Answered? && v.status in MemberStatuses
  }

  /**
   * What `is_member` decides, channel by channel in list order: the channels before
   * the last one reached all answered a member status; the user is refused exactly
   * when the last channel reached answered another status; the check stops early
   * only on that refusal or on an unreachable channel (fail-open); and no channel
   * after the last one reached is ever queried.
   */
  lemma MembershipMeaning(channels: seq<SponsorChannel>, retries: nat, backoff: real, lookups: seq<Lookup>, i: nat, base: nat)
    requires i <= |channels|
    ensures var m := MembershipFrom(channels, retries, backoff, lookups, i, base);
      && |m.verdicts| <= |channels| - i
      && (i < |channels| ==> |m.verdicts| >= 1)
      && (forall k :: 0 <= k < |m.verdicts| - 1 ==> Satisfies(m.verdicts[k]))
      && (!m.member <==> |m.verdicts| > 0 && m.verdicts[|m.verdicts| - 1].Answered? && !Satisfies(m.verdicts[|m.verdicts| - 1]))
      && (m.member && |m.verdicts| < |channels| - i ==> m.verdicts[|m.verdicts| - 1] == Unreachable)
  {
    MembershipShape(channels, retries, backoff, lookups, i, base);
    MembershipRefusal(channels, retries, backoff, lookups, i, base);
  }

  /** How many channels `is_member` reaches, and that all but the last were satisfied. */
  lemma {:induction false} MembershipShape(channels: seq<SponsorChannel>, retries: nat, backoff: real, lookups: seq<Lookup>, i: nat, base: nat)
    requires i <= |channels|
    ensures var m := MembershipFrom(channels, retries, backoff, lookups, i, base);
      && |m.verdicts| <= |channels| - i
      && (i < |channels| ==> |m.verdicts| >= 1)
      && (forall k :: 0 <= k < |m.verdicts| - 1 ==> Satisfies(m.verdicts[k]))
    decreases |channels| - i
  {
    if i < |channels| {
      var run := LookupFrom(retries, backoff, lookups, base, 0);
      var m := MembershipFrom(channels, retries, backoff, lookups, i, base);
      MembershipVerdicts(channels, retries, backoff, lookups, i, base);
      if Satisfies(run.verdict) {
        MembershipShape(channels, retries, backoff, lookups, i + 1, base + run.calls);
        var rest := MembershipFrom(channels, retries, backoff, lookups, i + 1, base + run.calls);
        assert forall k :: 1 <= k < |m.verdicts| ==> m.verdicts[k] == rest.verdicts[k - 1];
      }
    }
  }

  lemma LastOfCons(v: Verdict, vs: seq<Verdict>, all: seq<Verdict>)
    requires all == [v] + vs
    ensures |all| == |vs| + 1 && all[|all| - 1] == if vs == [] then v else vs[|vs| - 1]
  {
  }

  /** `is_member` refuses exactly on an unsatisfying answer from the last channel reached, and stops short only on that or on an unreachable one. */
  lemma {:induction false} MembershipRefusal(channels: seq<SponsorChannel>, retries: nat, backoff: real, lookups: seq<Lookup>, i: nat, base: nat)
    requires i <= |channels|
    ensures var m := MembershipFrom(channels, retries, backoff, lookups, i, base);
      && (!m.member <==> |m.verdicts| > 0 && m.verdicts[|m.verdicts| - 1].Answered? && !Satisfies(m.verdicts[|m.verdicts| - 1]))
      && (m.member && |m.verdicts| < |channels| - i ==> m.verdicts[|m.verdicts| - 1] == Unreachable)
    decreases |channels| - i
  {
    if i < |channels| {
      var run := LookupFrom(retries, backoff, lookups, base, 0);
      var m := MembershipFrom(channels, retries, backoff, lookups, i, base);
      MembershipVerdicts(channels, retries, backoff, lookups, i, base);
      if Satisfies(run.verdict) {
        MembershipRefusal(channels, retries, backoff, lookups, i + 1, base + run.calls);
        var rest := MembershipFrom(channels, retries, backoff, lookups, i + 1, base + run.calls);
        LastOfCons(run.verdict, rest.verdicts, m.verdicts);
      }
    }
  }

  /** The verdicts of `is_member` from channel `i`: the first channel's, then the rest's when it was satisfied. */
  lemma MembershipVerdicts(channels: seq<SponsorChannel>, retries: nat, backoff: real, lookups: seq<Lookup>, i: nat, base: nat)
    requires i < |channels|
    ensures var run := LookupFrom(retries, backoff, lookups, base, 0);
      var m := MembershipFrom(channels, retries, backoff, lookups, i, base);
      if Satisfies(run.verdict) then
        var rest := MembershipFrom(channels, retries, backoff, lookups, i + 1, base + run.calls);
        m.member == rest.member && m.verdicts == [run.verdict] + rest.verdicts
      else
        m.member == run.verdict.Unreachable? && m.verdicts == [run.verdict]
  {
  }

  /**
   * `is_member` queries only the channels it reached, each at most `retries + 1`
   * times: every chat id it asks about belongs to one of them.
   */
  lemma {:induction false} MembershipQueries(channels: seq<SponsorChannel>, retries: nat, backoff: real, lookups: seq<Lookup>, i: nat, base: nat)
    requires i <= |channels|
    ensures var m := MembershipFrom(channels, retries, backoff, lookups, i, base);
      && |m.verdicts| <= |channels| - i
      && (forall q :: q in m.queried ==> exists k :: i <= k < i + |m.verdicts| && channels[k].chatId == q)
      && |m.queried| <= |m.verdicts| * (retries + 1)
    decreases |channels| - i
  {
    if i < |channels| {
      var run := LookupFrom(retries, backoff, lookups, base, 0);
      LookupCalls(retries, backoff, lookups, base, 0);
      var asked := Text.Repeat(channels[i].chatId, run.calls);
      var m := MembershipFrom(channels, retries, backoff, lookups, i, base);
      if run.verdict.Answered? && run.verdict.status in MemberStatuses {
        MembershipQueries(channels, retries, backoff, lookups, i + 1, base + run.calls);
        var rest := MembershipFrom(channels, retries, backoff, lookups, i + 1, base + run.calls);
        assert m.queried == asked + rest.queried;
        forall q | q in m.queried ensures exists k :: i <= k < i + |m.verdicts| && channels[k].chatId == q {
          if q !in asked {
            assert q in rest.queried;
          }
        }
        assert |m.verdicts| == 1 + |rest.verdicts|;
        MulStep(|rest.verdicts|, retries + 1);
      }
    }
  }

  /** The user is a member when no channel is configured, without any lookup. */
  lemma MembershipNoChannels(retries: nat, backoff: real, lookups: seq<Lookup>)
    ensures Membership([], retries, backoff, lookups) == MemberCheck(true, [], [], [])
  {
  }

  // ---------------------------------------------------------------------------
  // The service object

  class SponsorService {
    var channels: seq<SponsorChannel>
    const membershipRetries: nat
    const membershipBackoff: real

    ghost predicate Valid()
      reads this
    {
      UniqueChatIds(channels) && forall c :: c in channels ==> Canonical(c)
    }

    constructor Empty()
      ensures Valid() && channels == []
      ensures membershipRetries == 1 && membershipBackoff == 0.5
    {
      channels := [];
      membershipRetries := 1;
      membershipBackoff := 0.5;
    }

    /** `SponsorService(initial_channels)`: the constructor raises when an initial channel is invalid. */
    static method Create(initialChannels: seq<string>) returns (r: Result<SponsorService, Exception>)
      ensures r.Ok? <==> NormalizedList(initialChannels).Ok?
      ensures r.Err? ==> r.error == UserVisibleError(SponsorInvalid)
      ensures r.Ok? ==> fresh(r.value) && r.value.Valid()
                        && r.value.channels == NormalizedList(initialChannels).value
                        && r.value.membershipRetries == 1 && r.value.membershipBackoff == 0.5
    {
      var service := new SponsorService.Empty();
      var raised := service.SetChannels(initialChannels);
      if raised.Some? {
        return Err(raised.value);
      }
      return Ok(service);
    }

    /** `list_channels`: the channels in list order (a Dafny sequence is already a copy). */
    function ListChannels(): seq<SponsorChannel>
      reads this
    {
      channels
    }

    /** `set_channels`: the list is replaced only when every input is valid. */
    method SetChannels(rawList: seq<string>) returns (raised: Option<Exception>)
      requires Valid()
      modifies this
      ensures Valid()
      ensures raised.None? <==> NormalizedList(rawList).Ok?
      ensures raised.Some? ==> raised.value == UserVisibleError(SponsorInvalid) && channels == old(channels)
      ensures raised.None? ==> channels == NormalizedList(rawList).value
    {
      var normalized := NormalizeChannels(rawList);
      if normalized.Err? {
        return Some(normalized.error);
      }
      channels := normalized.value;
      return None;
    }

    /** `set_channels_csv`. */
    method SetChannelsCsv(rawCsv: string) returns (raised: Option<Exception>)
      requires Valid()
      modifies this
      ensures Valid()
      ensures raised.None? <==> ParseChannelsCsv(rawCsv).Ok?
      ensures raised.Some? ==> raised.value == UserVisibleError(SponsorInvalid) && channels == old(channels)
      ensures raised.None? ==> channels == ParseChannelsCsv(rawCsv).value
    {
      var normalized := NormalizeChannels(Text.CsvItems(rawCsv));
      if normalized.Err? {
        return Some(normalized.error);
      }
      channels := normalized.value;
      return None;
    }

    /** `add_channel`: refuses invalid input and a chat id already listed; otherwise appends. */
    method AddChannel(raw: string) returns (raised: Option<Exception>)
      requires Valid()
      modifies this
      ensures Valid()
      ensures NormalizeChannel(raw).Err? ==> raised == Some(UserVisibleError(SponsorInvalid)) && channels == old(channels)
      ensures NormalizeChannel(raw).Ok? && NormalizeChannel(raw).value.chatId in ChatIds(old(channels))
              ==> raised == Some(UserVisibleError(SponsorAlreadyExists)) && channels == old(channels)
      ensures NormalizeChannel(raw).Ok? && NormalizeChannel(raw).value.chatId !in ChatIds(old(channels))
              ==> raised == None && channels == old(channels) + [NormalizeChannel(raw).value]
    {
      var normalized := NormalizeChannel(raw);
      if normalized.Err? {
        return Some(UserVisibleError(SponsorInvalid));
      }
      var channel := normalized.value;
      if channel.chatId in ChatIds(channels) {
        return Some(UserVisibleError(SponsorAlreadyExists));
      }
      AppendUnique(channels, channel);
      channels := channels + [channel];
      return None;
    }

    /** `remove_channel`: drops every entry with the chat id; refuses when there was none. */
    method RemoveChannel(raw: string) returns (raised: Option<Exception>)
      requires Valid()
      modifies this
      ensures Valid()
      ensures NormalizeChannel(raw).Err? ==> raised == Some(UserVisibleError(SponsorInvalid)) && channels == old(channels)
      ensures NormalizeChannel(raw).Ok? ==>
        var id := NormalizeChannel(raw).value.chatId;
        && channels == Without(old(channels), id)
        && id !in ChatIds(channels)
        && (raised == Some(UserVisibleError(SponsorNotFound)) <==> id !in ChatIds(old(channels)))
        && (raised.Some? ==> channels == old(channels))
        && (raised == None || raised == Some(UserVisibleError(SponsorNotFound)))
    {
      var normalized := NormalizeChannel(raw);
      if normalized.Err? {
        return Some(UserVisibleError(SponsorInvalid));
      }
      var id := normalized.value.chatId;
      var before := |channels|;
      WithoutFacts(channels, id);
      forall c | c in Without(channels, id) ensures Canonical(c) {}
      channels := Without(channels, id);
      if |channels| == before {
        return Some(UserVisibleError(SponsorNotFound));
      }
      return None;
    }

    /** `build_buttons`: one link row per channel, in list order. */
    function BuildButtons(): (rows: seq<seq<Button>>)
      reads this
      ensures |rows| == |channels|
      ensures forall i :: 0 <= i < |rows| ==> rows[i] == [UrlButton(channels[i].display, channels[i].url)]
    {
      var cs := channels;
      seq(|cs|, i requires 0 <= i < |cs| => [UrlButton(cs[i].display, cs[i].url)])
    }

    /**
     * `is_member`: every channel in order gets up to `membershipRetries + 1` lookups,
     * with a pause of `membershipBackoff * 2**attempt` after each failed one.
     * Returns the decision, the chat id of every lookup made, and the pauses taken.
     */
    method IsMember(lookups: seq<Lookup>) returns (member: bool, queried: seq<string>, delays: seq<real>)
      ensures var m := Membership(channels, membershipRetries, membershipBackoff, lookups);
        member == m.member && queried == m.queried && delays == m.delays
    {
      if channels == [] {
        return true, [], [];
      }
      var chans, retries, backoff := channels, membershipRetries, membershipBackoff;
      ghost var m := Membership(chans, retries, backoff, lookups);
      queried, delays := [], [];
      var i := 0;
      while i < |chans|
        invariant 0 <= i <= |chans|
        invariant var rest := MembershipFrom(chans, retries, backoff, lookups, i, |queried|);
          m.member == rest.member && m.queried == queried + rest.queried && m.delays == delays + rest.delays
      {
        var base := |queried|;
        ghost var run := LookupFrom(retries, backoff, lookups, base, 0);
        var status, calls, pauses := LookupMember(lookups, base);
        MembershipFromResumed(chans, retries, backoff, lookups, i, base, queried, delays);
        queried := queried + Text.Repeat(chans[i].chatId, calls);
        delays := delays + pauses;
        assert |queried| == base + run.calls;
        if status.None? {
          return true, queried, delays;
        }
        if status.value !in MemberStatuses {
          return false, queried, delays;
        }
        i := i + 1;
      }
      return true, queried, delays;
    }

    /**
     * The inner retry loop of `is_member` for one channel, its lookups starting at
     * index `base`: `None` when every attempt raised `TelegramError`.
     */
    method LookupMember(lookups: seq<Lookup>, base: nat) returns (status: Option<string>, calls: nat, pauses: seq<real>)
      ensures var run := LookupFrom(membershipRetries, membershipBackoff, lookups, base, 0);
        && calls == run.calls && pauses == run.delays
        && (status.None? <==> run.verdict == Unreachable)
        && (status.Some? ==> run.verdict == Answered(status.value))
    {
      ghost var run := LookupFrom(membershipRetries, membershipBackoff, lookups, base, 0);
      status := None;
      var attempt := 0;
      pauses := [];
      while attempt < membershipRetries + 1
        invariant 0 <= attempt <= membershipRetries + 1
        invariant attempt <= membershipRetries ==>
          run == (var r := LookupFrom(membershipRetries, membershipBackoff, lookups, base, attempt);
                  r.(delays := pauses + r.delays))
        invariant attempt > membershipRetries ==> run == LookupRun(Unreachable, attempt, pauses)
      {
        var answer := LookupAt(lookups, base + attempt);
        if answer.Status? {
          return Some(answer.status), attempt + 1, pauses;
        }
        if attempt < membershipRetries {
          pauses := pauses + [Delay(membershipBackoff, attempt)];
        }
        attempt := attempt + 1;
      }
      return None, attempt, pauses;
    }
  }
}
