/**
 * xilma/handlers/common.py: who counts as an admin, the sponsor keyboard, and
 * the membership gate the handlers run before serving a user. The Telegram
 * update is reduced to the sender's id (absent when the update has no user),
 * the bot data to the loaded settings and the sponsor service (either may be
 * absent), and the membership lookups to their scripted answers.
 */
module HandlersCommon {
  import opened Wrappers
  import opened Texts
  import Text
  import Config
  import Sponsor

  /** `is_admin`: the sender is one of the configured admin ids. */
  function IsAdmin(user: Option<int>, settings: Option<Config.Settings>): (admin: bool)
    ensures admin ==> user.Some? && settings.Some?
    ensures user.Some? && settings.Some? ==> (admin <==> user.value in settings.value.adminUserIds)
  {
    match (user, settings)
    case (Some(id), Some(s)) => id in s.adminUserIds
    case _ => false
  }

  /**
   * Under settings loaded from an environment, a user is an admin exactly when
   * one of the raw ids of `ADMIN_USER_ID` or `ADMIN_USER_IDS` reads as their id.
   */
  lemma AdminFromEnvironment(env: map<string, string>, id: int)
    requires Config.LoadSettings(env).Ok?
    ensures IsAdmin(Some(id), Some(Config.LoadSettings(env).value))
      <==> exists raw :: raw in Config.AdminRaws(Config.Getenv(env, "ADMIN_USER_ID"), Config.Getenv(env, "ADMIN_USER_IDS"))
                         && Text.ParseInt(raw) == Some(id)
  {
    var primary, additional := Config.Getenv(env, "ADMIN_USER_ID"), Config.Getenv(env, "ADMIN_USER_IDS");
    Config.ParseAdminIdsMeaning(primary, additional);
    var ids := Config.ParsedIds(Config.AdminRaws(primary, additional));
    assert Config.LoadSettings(env).value.adminUserIds == ids;
    if id in ids {
      var raw :| raw in Config.AdminRaws(primary, additional) && Text.ParseInt(raw).Some? && Text.ParseInt(raw).value == id;
      assert Text.ParseInt(raw) == Some(id);
    }
  }

  /** The keyboard row every sponsor prompt ends with. */
  const CheckRow: seq<Sponsor.Button> := [Sponsor.CallbackButton(CheckMembership, "check_membership")]

  /**
   * `_build_sponsor_markup`: one link row per sponsor channel, then the
   * "check membership" row; no keyboard without a service or without channels.
   */
  function BuildSponsorMarkup(service: Sponsor.SponsorService?): (markup: Option<seq<seq<Sponsor.Button>>>)
    reads service
    ensures markup.None? <==> service == null || service.channels == []
    ensures markup.Some? ==> var rows := markup.value;
      && |rows| == |service.channels| + 1
      && rows[..|service.channels|] == service.BuildButtons()
      && (forall i :: 0 <= i < |rows| ==> (rows[i] == CheckRow <==> i == |service.channels|))
  {
    if service == null then None
    else
      var buttons := service.BuildButtons();
      if buttons == [] then None
      else
        assert forall i :: 0 <= i < |buttons| ==> buttons[i][0].UrlButton?;
        Some(buttons + [CheckRow])
  }

  /** A reply sent to the user: a text and an optional inline keyboard. */
  datatype Prompt = Prompt(text: TextKey, markup: Option<seq<seq<Sponsor.Button>>>)

  /** What a membership gate decided, the prompt it sent, and the lookups it made. */
  datatype Gate = Gate(allowed: bool, prompt: Option<Prompt>, queried: seq<string>, delays: seq<real>)

  /** The gate passes without a lookup or a prompt. */
  const Pass := Gate(true, None, [], [])

  /** The outcome of `is_member` for a user, and the sponsor prompt when it says no. */
  function MemberGate(service: Sponsor.SponsorService, lookups: seq<Sponsor.Lookup>): (g: Gate)
    reads service
    ensures var m := Sponsor.Membership(service.channels, service.membershipRetries, service.membershipBackoff, lookups);
      g.allowed == m.member && g.queried == m.queried && g.delays == m.delays
    ensures g.prompt.Some? <==> !g.allowed
    ensures g.prompt.Some? ==> g.prompt.value == Prompt(SponsorRequired, BuildSponsorMarkup(service))
                               && g.prompt.value.markup.Some?
  {
    var m := Sponsor.Membership(service.channels, service.membershipRetries, service.membershipBackoff, lookups);
    Sponsor.MembershipNoChannels(service.membershipRetries, service.membershipBackoff, lookups);
    Gate(m.member, if m.member then None else Some(Prompt(SponsorRequired, BuildSponsorMarkup(service))), m.queried, m.delays)
  }

  /**
   * `ensure_sponsor_membership`: admins pass, an update without a user is
   * refused, everyone passes when no sponsor service is running, and otherwise
   * `is_member` decides.
   */
  function EnsureSponsorMembership(user: Option<int>, settings: Option<Config.Settings>,
                                   service: Sponsor.SponsorService?, lookups: seq<Sponsor.Lookup>): (g: Gate)
    reads service
    ensures IsAdmin(user, settings) ==> g == Pass
    ensures user.None? ==> g == Gate(false, None, [], [])
    ensures !IsAdmin(user, settings) && user.Some? && service == null ==> g == Pass
    ensures !IsAdmin(user, settings) && user.Some? && service != null ==> g == MemberGate(service, lookups)
    ensures g.prompt.Some? <==> !g.allowed && user.Some?
  {
    if IsAdmin(user, settings) then Pass
    else if user.None? then Gate(false, None, [], [])
    else if service == null then Pass
    else MemberGate(service, lookups)
  }

  /**
   * The gate's lookups are `is_member`'s: a refusal with a prompt means the last
   * channel reached answered a status other than member, administrator or
   * creator; an unreachable channel never refuses.
   */
  lemma GateRefusal(user: Option<int>, settings: Option<Config.Settings>,
                    service: Sponsor.SponsorService?, lookups: seq<Sponsor.Lookup>)
    requires EnsureSponsorMembership(user, settings, service, lookups).prompt.Some?
    ensures service != null && service.channels != []
    ensures var m := Sponsor.Membership(service.channels, service.membershipRetries, service.membershipBackoff, lookups);
      && |m.verdicts| > 0
      && m.verdicts[|m.verdicts| - 1].Answered?
      && m.verdicts[|m.verdicts| - 1].status !in Sponsor.MemberStatuses
  {
    Sponsor.MembershipMeaning(service.channels, service.membershipRetries, service.membershipBackoff, lookups, 0, 0);
  }
}
