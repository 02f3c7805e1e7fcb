/** src/utils/generators.js: `generateAll` composes the two cyclic generators, and
    `generateEmail` builds an address on one of six fixed domains. */
module Generators {
  import Cycle
  import NameGenerator
  import MessageGenerator

  /** The object `generateAll` returns: either only the error, or only the three fields. */
  datatype Generated =
    | LoadingError(error: string)
    | Generated(senderName: string, recipientName: string, message: string)

  const StillLoading: string := "Libraries still loading..."

  /** `generateAll`: when both libraries are loaded, the two names come from
      `generateBothNames` and then the message from `getNextMessage`; otherwise only the
      error is returned and neither cursor moves. */
  method GenerateAll(names: NameGenerator.NameGenerator, messages: MessageGenerator.MessageGenerator)
    returns (r: Generated)
    requires names.Valid() && messages.Valid()
    modifies names, messages
    ensures names.Valid() && messages.Valid()
    ensures r.LoadingError? <==> !(names.AreNamesLoaded() && messages.AreMessagesLoaded())
    ensures r.LoadingError? ==> r.error == StillLoading
    ensures r.LoadingError? ==> names.nameIndex == old(names.nameIndex) && messages.msgIndex == old(messages.msgIndex)
    ensures r.Generated? ==>
      var m := NameGenerator.Max(|names.firstNames|, |names.lastNames|);
      && r.senderName == NameGenerator.FullNameAt(names.firstNames, names.lastNames, old(names.nameIndex))
      && r.recipientName == NameGenerator.FullNameAt(names.firstNames, names.lastNames, Cycle.Step(m, old(names.nameIndex)))
      && names.nameIndex == Cycle.CursorAfter(m, old(names.nameIndex), 2)
      && r.message == messages.messages[old(messages.msgIndex)]
      && messages.msgIndex == Cycle.Step(|messages.messages|, old(messages.msgIndex))
  {
    if !names.AreNamesLoaded() || !messages.AreMessagesLoaded() {
      return LoadingError(StillLoading);
    }
    var sender, recipient := names.GenerateBothNames();
    var message := messages.NextMessage();
    r := Generated(sender, recipient, message);
  }

  const Domains: seq<string> :=
    ["gmail.com", "yahoo.com", "outlook.com", "hotmail.com", "icloud.com", "protonmail.com"]

  /** `generateEmail`, with the random local part and the random domain position as
      parameters. */
  function GenerateEmail(randomString: string, pick: nat): (r: string)
    requires pick < |Domains|
    ensures |r| > |randomString| && r[..|randomString|] == randomString && r[|randomString|] == '@'
    ensures r[|randomString| + 1..] in Domains
  {
    randomString + "@" + Domains[pick]
  }

  /** The address splits back into the local part and the chosen domain. */
  lemma EmailParts(randomString: string, pick: nat)
    requires pick < |Domains|
    ensures GenerateEmail(randomString, pick)[|randomString| + 1..] == Domains[pick]
    ensures GenerateEmail(randomString, pick)[..|randomString|] == randomString
  {
    var r := GenerateEmail(randomString, pick);
    assert r == randomString + ("@" + Domains[pick]);
  }
}
