/** The subscription value: which channel a connection joins and the join
    request it sends once the connection is open. */
module Subscription {

  import opened Wrappers

  /** Text of the join request before the channel name. */
  const RequestPrefix: string := "{  \"event\": \"bts:subscribe\",  \"data\": {  \"channel\": \""
  /** Text of the join request after the channel name. */
  const RequestSuffix: string := "\"  } }"

  /** Reads the channel name back out of a join request; `None` when the text
      is not shaped like one. */
  function ChannelOfRequest(request: string): (r: Option<string>)
    ensures r.Some? ==> RequestPrefix + r.value + RequestSuffix == request
  {
    if |request| >= |RequestPrefix| + |RequestSuffix|
       && request[..|RequestPrefix|] == RequestPrefix
       && request[|request| - |RequestSuffix|..] == RequestSuffix
    then
      var channel := request[|RequestPrefix|..|request| - |RequestSuffix|];
      assert RequestPrefix + channel + RequestSuffix == request;
      Some(channel)
    else None
  }

  /** An immutable subscription to one channel. */
  datatype SubscriptionDetails = SubscriptionDetails(channel: string)
  {
    /** The join request: a fixed JSON-shaped text with the channel name
        inserted verbatim; reading it back yields exactly this channel. */
    function GenerateRequest(): (request: string)
      ensures ChannelOfRequest(request) == Some(channel)
      ensures request[..|RequestPrefix|] == RequestPrefix
      ensures |request| == |RequestPrefix| + |channel| + |RequestSuffix|
    {
      var request := RequestPrefix + channel + RequestSuffix;
      assert request[..|RequestPrefix|] == RequestPrefix;
      assert request[|RequestPrefix|..|request| - |RequestSuffix|] == channel;
      assert request[|request| - |RequestSuffix|..] == RequestSuffix;
      request
    }

    /** The channel given at construction, unchanged: the one the join
        request names. */
    function GetChannel(): (c: string)
      ensures ChannelOfRequest(GenerateRequest()) == Some(c)
    {
      channel
    }
  }

  /** Two subscriptions send the same join request only if they name the same channel. */
  lemma GenerateRequestInjective(a: SubscriptionDetails, b: SubscriptionDetails)
    ensures a.GenerateRequest() == b.GenerateRequest() ==> a == b
  {
    if a.GenerateRequest() == b.GenerateRequest() {
      assert Some(a.channel) == ChannelOfRequest(a.GenerateRequest()) == Some(b.channel);
    }
  }
}
