/**
 * `TopicStorage` of the MQTT broker: saving, deleting, listing and fetching topic
 * metadata through the placement service.
 *
 * The placement calls, the broker configuration and the topic serialisation are
 * collaborators outside this model: each placement call is a function from
 * (placement address, request) to its outcome, and encoding and decoding are
 * functions too. What is modelled is the request each operation builds and what
 * it does with the reply.
 */
module TopicStorage {
  import opened Wrappers

  /** `RobustMQError`: the wrapping error `CommmonError` and any other error of the RPC layer. */
  datatype RobustMqError = CommmonError(message: string) | RpcError(message: string)
  {
    /** `to_string()`: the error's message. */
    function ToString(): string { message }
  }

  /** The two settings of the broker configuration these operations read. */
  datatype BrokerConf = BrokerConf(clusterName: string, placementServer: seq<string>)

  /**
   * `MQTTTopic`: its name and, as one opaque value, every other field of the
   * record, which this code never reads.
   */
  datatype MqttTopic = MqttTopic(topicName: string, rest: string)

  /** `MQTTTopic::new(name)`: a fresh topic record for `name`. */
  function NewTopic(name: string): (t: MqttTopic)
    ensures t.topicName == name
  {
    MqttTopic(name, "")
  }

  datatype CreateTopicRequest = CreateTopicRequest(clusterName: string, topicName: string, content: seq<bv8>)
  datatype DeleteTopicRequest = DeleteTopicRequest(clusterName: string, topicName: string)
  datatype ListTopicRequest = ListTopicRequest(clusterName: string, topicName: string)
  datatype ListTopicReply = ListTopicReply(topics: seq<string>)

  /** `placement_create_topic`, `placement_delete_topic` and `placement_list_topic`. */
  datatype Placement = Placement(
    createTopic: (seq<string>, CreateTopicRequest) -> Result<(), RobustMqError>,
    deleteTopic: (seq<string>, DeleteTopicRequest) -> Result<(), RobustMqError>,
    listTopic: (seq<string>, ListTopicRequest) -> Result<ListTopicReply, RobustMqError>)

  /** `MQTTTopic::encode` and `serde_json::from_str::<MQTTTopic>` (failing with an error text). */
  datatype TopicCodec = TopicCodec(
    encode: MqttTopic -> seq<bv8>,
    decode: string -> Result<MqttTopic, string>)

  /** The message prefix of the errors `save_topic` and `delete_topic` wrap. */
  const SaveErrorPrefix: string := "save user config error, error messsage:"

  /** The topic name a list request uses to ask for every topic. */
  const Wildcard: string := ""

  /** `e` wrapped as `save_topic` and `delete_topic` wrap an RPC error. */
  predicate WrapsRpcError(w: RobustMqError, e: RobustMqError)
  {
    w.CommmonError? && w.message == SaveErrorPrefix + e.ToString()
  }

  /** The error the two mutation operations return for an RPC error `e`. */
  function WrapRpcError(e: RobustMqError): (w: RobustMqError)
    ensures WrapsRpcError(w, e)
    ensures |SaveErrorPrefix| <= |w.message| && w.message[..|SaveErrorPrefix|] == SaveErrorPrefix
    ensures w.message[|SaveErrorPrefix|..] == e.ToString()
  {
    CommmonError(SaveErrorPrefix + e.ToString())
  }

  /** The original error text can be read back from the wrapped message. */
  lemma WrapRpcErrorInjective(e1: RobustMqError, e2: RobustMqError)
    requires WrapRpcError(e1) == WrapRpcError(e2)
    ensures e1.ToString() == e2.ToString()
  {
    assert e1.ToString() == WrapRpcError(e1).message[|SaveErrorPrefix|..];
  }

  /** `save_topic`: creates `topicName`, its content the encoding of a fresh record. */
  function SaveTopic(conf: BrokerConf, placement: Placement, codec: TopicCodec, topicName: string): (r: Result<(), RobustMqError>)
    ensures var sent := CreateTopicRequest(conf.clusterName, topicName, codec.encode(NewTopic(topicName)));
      var outcome := placement.createTopic(conf.placementServer, sent);
      && (r.Ok? <==> outcome.Ok?)
      && (outcome.Err? ==> WrapsRpcError(r.error, outcome.error))
  {
    var topic := NewTopic(topicName);
    var request := CreateTopicRequest(conf.clusterName, topicName, codec.encode(topic));
    match placement.createTopic(conf.placementServer, request)
    case Ok(_) => Ok(())
    case Err(e) => Err(WrapRpcError(e))
  }

  /** `delete_topic`: deletes `topicName`; an RPC error is wrapped with the save wording. */
  function DeleteTopic(conf: BrokerConf, placement: Placement, topicName: string): (r: Result<(), RobustMqError>)
    ensures var outcome := placement.deleteTopic(conf.placementServer, DeleteTopicRequest(conf.clusterName, topicName));
      && (r.Ok? <==> outcome.Ok?)
      && (outcome.Err? ==> WrapsRpcError(r.error, outcome.error))
  {
    var request := DeleteTopicRequest(conf.clusterName, topicName);
    match placement.deleteTopic(conf.placementServer, request)
    case Ok(_) => Ok(())
    case Err(e) => Err(WrapRpcError(e))
  }

  /** A failed save and a failed delete with the same RPC error report the same error. */
  lemma DeleteReusesSaveWording(conf: BrokerConf, placement: Placement, codec: TopicCodec, name: string)
    requires placement.createTopic(conf.placementServer,
      CreateTopicRequest(conf.clusterName, name, codec.encode(NewTopic(name)))).Err?
    requires placement.deleteTopic(conf.placementServer, DeleteTopicRequest(conf.clusterName, name))
      == placement.createTopic(conf.placementServer, CreateTopicRequest(conf.clusterName, name, codec.encode(NewTopic(name))))
    ensures SaveTopic(conf, placement, codec, name) == DeleteTopic(conf, placement, name)
    ensures SaveTopic(conf, placement, codec, name).Err?
  {
  }

  /** `raw` decodes to a topic named `name`. */
  predicate DecodesTo(decode: string -> Result<MqttTopic, string>, raw: string, name: string)
  {
    decode(raw).Ok? && decode(raw).value.topicName == name
  }

  /**
   * The map the loop of `topic_list` builds from the raw entries: each entry that
   * decodes is inserted under its topic name, replacing an earlier one; an entry
   * that does not decode is skipped.
   */
  function TopicIndex(raws: seq<string>, decode: string -> Result<MqttTopic, string>): map<string, MqttTopic>
    decreases |raws|
  {
    if raws == [] then map[]
    else
      var index := TopicIndex(raws[..|raws| - 1], decode);
      match decode(raws[|raws| - 1])
      case Ok(t) => index[t.topicName := t]
      case Err(_) => index
  }

  /**
   * `topic_list`: asks for every topic, then indexes the decodable entries by
   * name. An RPC error is returned unchanged; an undecodable entry never fails
   * the call.
   */
  method TopicList(conf: BrokerConf, placement: Placement, codec: TopicCodec)
    returns (r: Result<map<string, MqttTopic>, RobustMqError>)
    ensures var reply := placement.listTopic(conf.placementServer, ListTopicRequest(conf.clusterName, Wildcard));
      && (reply.Err? ==> r == Err(reply.error))
      && (reply.Ok? ==> r == Ok(TopicIndex(reply.value.topics, codec.decode)))
    ensures r.Ok? ==> forall name :: name in r.value ==> r.value[name].topicName == name
  {
    var request := ListTopicRequest(conf.clusterName, Wildcard);
    match placement.listTopic(conf.placementServer, request)
    case Err(e) =>
      return Err(e);
    case Ok(reply) =>
      var raws := reply.topics;
      var results: map<string, MqttTopic> := map[];
      for i := 0 to |raws|
        invariant results == TopicIndex(raws[..i], codec.decode)
      {
        assert raws[..i + 1][..i] == raws[..i];
        match codec.decode(raws[i])
        case Ok(data) =>
          results := results[data.topicName := data];
        case Err(_) =>
      }
      assert raws[..|raws|] == raws;
      IndexKeysAreNames(raws, codec.decode);
      return Ok(results);
  }

  /** Every key of the index maps to a topic of that name. */
  lemma {:induction false} IndexKeysAreNames(raws: seq<string>, decode: string -> Result<MqttTopic, string>)
    ensures forall name :: name in TopicIndex(raws, decode) ==> TopicIndex(raws, decode)[name].topicName == name
  {
    if raws != [] {
      IndexKeysAreNames(raws[..|raws| - 1], decode);
    }
  }

  /** A name is a key of the index exactly when some raw entry decodes to a topic of that name. */
  lemma {:induction false} IndexKeyIff(raws: seq<string>, decode: string -> Result<MqttTopic, string>, name: string)
    ensures name in TopicIndex(raws, decode) <==> exists i :: 0 <= i < |raws| && DecodesTo(decode, raws[i], name)
  {
    if raws != [] {
      var init := raws[..|raws| - 1];
      IndexKeyIff(init, decode, name);
      if exists i :: 0 <= i < |init| && DecodesTo(decode, init[i], name) {
        var i :| 0 <= i < |init| && DecodesTo(decode, init[i], name);
        assert DecodesTo(decode, raws[i], name);
      }
      if exists i :: 0 <= i < |raws| && DecodesTo(decode, raws[i], name) {
        var i :| 0 <= i < |raws| && DecodesTo(decode, raws[i], name);
        if i < |init| {
          assert DecodesTo(decode, init[i], name);
        }
      }
    }
  }

  /** The index never has more keys than there are raw entries. */
  lemma {:induction false} IndexSize(raws: seq<string>, decode: string -> Result<MqttTopic, string>)
    ensures |TopicIndex(raws, decode)| <= |raws|
  {
    if raws != [] {
      IndexSize(raws[..|raws| - 1], decode);
    }
  }

  /** A malformed entry among `n` raw entries leaves at most `n - 1` keys, without failing. */
  lemma MalformedShrinks(before: seq<string>, bad: string, after: seq<string>, decode: string -> Result<MqttTopic, string>)
    requires decode(bad).Err?
    ensures |TopicIndex(before + [bad] + after, decode)| <= |before + [bad] + after| - 1
  {
    IndexSkipsUndecodable(before, bad, after, decode);
    IndexSize(before + after, decode);
  }

  /** Of several entries decoding to the same name, the index holds the last one. */
  lemma {:induction false} IndexLastWins(raws: seq<string>, decode: string -> Result<MqttTopic, string>, i: nat)
    requires i < |raws| && decode(raws[i]).Ok?
    requires forall j :: i < j < |raws| ==> !DecodesTo(decode, raws[j], decode(raws[i]).value.topicName)
    ensures decode(raws[i]).value.topicName in TopicIndex(raws, decode)
    ensures TopicIndex(raws, decode)[decode(raws[i]).value.topicName] == decode(raws[i]).value
  {
    if i < |raws| - 1 {
      IndexLastWins(raws[..|raws| - 1], decode, i);
    }
  }

  /** An entry that does not decode leaves the index as if it were absent. */
  lemma {:induction false} IndexSkipsUndecodable(
    before: seq<string>, bad: string, after: seq<string>, decode: string -> Result<MqttTopic, string>)
    requires decode(bad).Err?
    ensures TopicIndex(before + [bad] + after, decode) == TopicIndex(before + after, decode)
    decreases |after|
  {
    if after == [] {
      assert (before + [bad] + after)[..|before|] == before;
      assert before + after == before;
    } else {
      var init := after[..|after| - 1];
      IndexSkipsUndecodable(before, bad, init, decode);
      assert (before + [bad] + after)[..|before + [bad] + after| - 1] == before + [bad] + init;
      assert (before + after)[..|before + after| - 1] == before + init;
    }
  }

  /**
   * What `get_topic` makes of a reply: nothing for an empty reply, otherwise the
   * first entry decoded, a decode failure being an error.
   */
  function TopicFromReply(reply: Result<ListTopicReply, RobustMqError>, decode: string -> Result<MqttTopic, string>)
    : (r: Result<Option<MqttTopic>, RobustMqError>)
    ensures reply.Err? ==> r == Err(reply.error)
    ensures reply.Ok? && reply.value.topics == [] ==> r == Ok(None)
    ensures reply.Ok? && reply.value.topics != [] ==>
      && (decode(reply.value.topics[0]).Ok? ==> r == Ok(Some(decode(reply.value.topics[0]).value)))
      && (decode(reply.value.topics[0]).Err? ==> r == Err(CommmonError(decode(reply.value.topics[0]).error)))
  {
    match reply
    case Err(e) => Err(e)
    case Ok(rep) =>
      if |rep.topics| == 0 then Ok(None)
      else
        match decode(rep.topics[0])
        case Ok(data) => Ok(Some(data))
        case Err(e) => Err(CommmonError(e))
  }

  /** `get_topic`: lists the topics named `topicName` and reads the reply. */
  function GetTopic(conf: BrokerConf, placement: Placement, codec: TopicCodec, topicName: string)
    : (r: Result<Option<MqttTopic>, RobustMqError>)
    ensures var reply := placement.listTopic(conf.placementServer, ListTopicRequest(conf.clusterName, topicName));
      && (reply.Err? ==> r == Err(reply.error))
      && (reply.Ok? && reply.value.topics == [] ==> r == Ok(None))
      && (reply.Ok? && reply.value.topics != [] ==>
            var first := codec.decode(reply.value.topics[0]);
            && (first.Ok? ==> r == Ok(Some(first.value)))
            && (first.Err? ==> r == Err(CommmonError(first.error))))
  {
    var request := ListTopicRequest(conf.clusterName, topicName);
    TopicFromReply(placement.listTopic(conf.placementServer, request), codec.decode)
  }

  /** Only the first entry of a non-empty reply matters to `get_topic`. */
  lemma GetReadsOnlyFirst(a: seq<string>, b: seq<string>, decode: string -> Result<MqttTopic, string>)
    requires a != [] && b != [] && a[0] == b[0]
    ensures TopicFromReply(Ok(ListTopicReply(a)), decode) == TopicFromReply(Ok(ListTopicReply(b)), decode)
  {
  }

  /**
   * On the same reply, a topic `get_topic` finds is a key of the `topic_list`
   * index; and where `get_topic` fails on an undecodable first entry,
   * `topic_list` still succeeds with that entry left out.
   */
  lemma {:induction false} GetAndListAgree(topics: seq<string>, decode: string -> Result<MqttTopic, string>)
    requires topics != []
    ensures var got := TopicFromReply(Ok(ListTopicReply(topics)), decode);
      got.Ok? && got.value.Some? ==> got.value.value.topicName in TopicIndex(topics, decode)
    ensures decode(topics[0]).Err? ==>
      TopicFromReply(Ok(ListTopicReply(topics)), decode).Err? && TopicIndex(topics, decode) == TopicIndex(topics[1..], decode)
  {
    if decode(topics[0]).Ok? {
      IndexKeyIff(topics, decode, decode(topics[0]).value.topicName);
    } else {
      IndexSkipsUndecodable([], topics[0], topics[1..], decode);
      assert [] + [topics[0]] + topics[1..] == topics;
      assert [] + topics[1..] == topics[1..];
    }
  }
}
