/**
 * The user-facing message constants of xilma/texts.py. Their Persian wording is
 * irrelevant to the logic, so each is an opaque, distinct key.
 */
module Texts {

  datatype TextKey =
    | StartMessage
    | SystemPrompt
    | HelpMessage
    | SponsorRequired
    | SponsorInvalid
    | SponsorAlreadyExists
    | SponsorNotFound
    | CheckMembership
    | MembershipOk
    | ChatReset
    | ChatOnlyText
    | ModelSet
    | ModelCurrent
    | ModelUsage
    | ApiKeyMissing   // used by handlers/user.py but absent from texts.py
}
