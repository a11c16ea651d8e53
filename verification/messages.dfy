/** What the bot says: buttons (BotButtonResponse) and outgoing messages
    (BotMessageResponse). The Russian wording is not modelled; every
    distinct text the flow engine can send is one `Text` constructor, and a
    text that embeds data carries that data. */
module Messages {
  import opened Wrappers
  import opened Domain

  datatype ButtonType = Callback | Url | RequestContact

  /** A button: its caption, kind, and the callback data, url or the
      "request_contact" marker (a url taken from configuration may be null). */
  datatype Button = Button(text: string, buttonType: ButtonType, value: Option<string>)

  function CallbackButton(text: string, data: string): Button {
    Button(text, Callback, Some(data))
  }

  function UrlButton(text: string, url: Option<string>): Button {
    Button(text, Url, url)
  }

  function RequestContactButton(text: string): Button {
    Button(text, RequestContact, Some("request_contact"))
  }

  datatype Text =
    | StartNudge                  // empty update: press /start to register
    | WelcomeSubscribed           // greeting of a school-channel subscriber
    | WelcomeSubscribeFirst       // greeting asking to subscribe first
    | ReferralLinkUnusable        // the referral link cannot be used
    | ReferralLinkUsed            // this link can no longer be used
    | ReferralWelcome             // greeting of an invited friend
    | StaleButton                 // unknown callback
    | ConsentRequest              // consent to personal-data processing
    | AskName
    | SchoolCheckFailed           // school check ERROR on the normal track
    | SchoolCheckFailedReferral   // school check ERROR on the referral track
    | SchoolNotYetSubscribed
    | CourseCheckFailed
    | CourseNotYetSubscribed
    | RestartHint                 // press /start to begin again
    | Terms                       // the referral programme terms
    | FinishRegistrationFirst
    | LinkGenerationFailed
    | ReferralLink(link: string)  // the invitation link itself
    | LinkFooter
    | ReferralContextMissing
    | AlmostReady                 // the announcement will follow shortly
    | SendPhoneViaButton
    | DefaultHint
    | ContactNotRequested
    | OwnContactRequired
    | CompletePreviousSteps
    | ChooseOfferedLevel
    | RegistrationCompleted
    | ReferrerCredited(total: Int32)  // "+1" with the referrer's new total
    | InvalidName
    | AskAge
    | NiceToMeet(name: Option<string>)
    | InvalidAge
    | AskHasChildren
    | ChooseOptionBelowPointing   // the has-children re-prompt
    | ChooseOptionBelow           // the children-study re-prompt
    | AskChildrenStudy
    | AskPhone
    | AskReadingLevel
    | ReferralProgramIntro        // the FLOW2 announcement
    | RegistrationNotice(userId: int)  // to administrators

  /** One outgoing message. */
  datatype BotMessage = BotMessage(recipient: int, text: Text, buttons: seq<Button>)
}
