/** The method-call handler installed on the getString channel, and the
    `getString` reply it produces (ios/Runner/AppDelegate.swift). */
module MethodChannel {

  /** The only method name the handler answers. */
  const GetStringMethod: string := "getStringMethodChannel"

  const ReplyPrefix: string := "This is string returned from "
  const ReplySuffix: string := "'s Device"

  /** One call of the `FlutterResult` callback: the not-implemented sentinel or a string. */
  datatype Reply = NotImplemented | Value(text: string)

  /** The reply of `getString`: the user name embedded between a fixed
      leading and a fixed trailing text. */
  function GetString(userName: string): (r: string)
    ensures |r| == |ReplyPrefix| + |userName| + |ReplySuffix|
    ensures r[..|ReplyPrefix|] == ReplyPrefix
    ensures r[|ReplyPrefix|..|ReplyPrefix| + |userName|] == userName
    ensures r[|ReplyPrefix| + |userName|..] == ReplySuffix
  {
    ReplyPrefix + userName + ReplySuffix
  }

  /** Reads the user name back out of a `getString` reply. */
  function UserNameOf(reply: string): (name: string)
    requires |reply| >= |ReplyPrefix| + |ReplySuffix|
    ensures |name| == |reply| - |ReplyPrefix| - |ReplySuffix|
    ensures reply[..|ReplyPrefix|] == ReplyPrefix && reply[|reply| - |ReplySuffix|..] == ReplySuffix ==>
      GetString(name) == reply
  {
    reply[|ReplyPrefix|..|reply| - |ReplySuffix|]
  }

  /** The reply determines the user name: reading it back gives the name
      that was embedded, so distinct users get distinct replies. */
  lemma GetStringRoundTrip(userName: string, other: string)
    ensures UserNameOf(GetString(userName)) == userName
    ensures GetString(userName) == GetString(other) ==> userName == other
  {
  }

  /** The handler closure: the sequence of result calls it makes for a call
      named `name`. A different name gets exactly the not-implemented
      sentinel. The matching name is forwarded to `getString` through a weak
      reference to the delegate, so it gets exactly one string reply while
      the delegate is alive and no reply at all once it is gone. */
  function HandleMethodCall(name: string, delegateAlive: bool, userName: string): (replies: seq<Reply>)
    ensures name != GetStringMethod ==> replies == [NotImplemented]
    ensures name == GetStringMethod && delegateAlive ==> replies == [Value(GetString(userName))]
    ensures name == GetStringMethod && !delegateAlive ==> replies == []
    ensures |replies| <= 1
    ensures NotImplemented in replies <==> name != GetStringMethod
  {
    if name != GetStringMethod then [NotImplemented]
    else if delegateAlive then [Value(GetString(userName))]
    else []
  }
}
