/**
 The MQTT topic scheme and its AMQP routing-key translation (`crates/domo-common/src/topic.rs`).

 The two matching relations are written down from the standards, so the translation can be
 compared with them: section 4.7 of MQTT 3.1.1 for filters, and section 3.1.3.3 of AMQP 0-9-1
 for topic-exchange patterns.
 */
module Topic {
  import opened Common
  import opened Text

  const TOPIC_ROOT := "domo"
  const MQTT_SEPARATOR := '/'
  const ROUTING_SEPARATOR := '.'
  const MQTT_SINGLE := "+"
  const ROUTING_SINGLE := "*"
  const MULTI := "#"

  /** The topic prefix owned by one device. */
  function DevicePrefix(slug: string, account: string): string {
    TOPIC_ROOT + [MQTT_SEPARATOR] + slug + [MQTT_SEPARATOR] + account
  }

  // ---------------------------------------------------------------- translation

  /** A level with no character that means something on either side. */
  predicate Plain(level: string) {
    level != "" && '.' !in level && '*' !in level && '#' !in level && '+' !in level
  }

  predicate Carriable(level: string, isLast: bool) {
    level == MQTT_SINGLE || (level == MULTI && isLast) || Plain(level)
  }

  predicate CarriableLevels(levels: seq<string>) {
    forall i | 0 <= i < |levels| :: Carriable(levels[i], i == |levels| - 1)
  }

  /** None of the refusal conditions holds. */
  predicate Accepted(topic: string) {
    CarriableLevels(Split(topic, MQTT_SEPARATOR))
  }

  function Translated(level: string): string {
    if level == MQTT_SINGLE then ROUTING_SINGLE else level
  }

  function TranslatedLevels(levels: seq<string>): (words: seq<string>)
    ensures |words| == |levels|
  {
    seq(|levels|, i requires 0 <= i < |levels| => Translated(levels[i]))
  }

  function RoutingKey(topic: string): Option<string> {
    if Accepted(topic)
    then Some(Join(TranslatedLevels(Split(topic, MQTT_SEPARATOR)), ROUTING_SEPARATOR))
    else None
  }

  /** Walks the levels, pushing each translated level, and refuses at the first bad one. */
  method ToRoutingKey(topic: string) returns (key: Option<string>)
    ensures key == RoutingKey(topic)
  {
    if topic == "" {
      return None;
    }
    var levels := Split(topic, MQTT_SEPARATOR);
    var last := |levels| - 1;
    var out: seq<string> := [];
    for i := 0 to |levels|
      invariant |out| == i
      invariant forall j | 0 <= j < i :: Carriable(levels[j], j == last) && out[j] == Translated(levels[j])
    {
      var level := levels[i];
      if level == "" {
        return None;
      } else if level == MQTT_SINGLE {
        out := out + [ROUTING_SINGLE];
      } else if level == MULTI && i == last {
        out := out + [MULTI];
      } else if level == MULTI {
        return None;
      } else {
        if ROUTING_SEPARATOR in level || '*' in level || '#' in level || '+' in level {
          return None;
        }
        out := out + [level];
      }
    }
    assert out == TranslatedLevels(levels);
    return Some(Join(out, ROUTING_SEPARATOR));
  }

  lemma WordsOfKey(topic: string)
    requires Accepted(topic)
    ensures Split(RoutingKey(topic).value, ROUTING_SEPARATOR) == TranslatedLevels(Split(topic, MQTT_SEPARATOR))
  {
    var levels := Split(topic, MQTT_SEPARATOR);
    var words := TranslatedLevels(levels);
    forall w | w in words ensures ROUTING_SEPARATOR !in w {
      var i :| 0 <= i < |words| && words[i] == w;
      assert Carriable(levels[i], i == |levels| - 1);
    }
    SplitJoin(words, ROUTING_SEPARATOR);
  }

  /** The topic a routing key came from. */
  function TopicOfKey(key: string): string {
    var words := Split(key, ROUTING_SEPARATOR);
    Join(seq(|words|, i requires 0 <= i < |words| =>
               if words[i] == ROUTING_SINGLE then MQTT_SINGLE else words[i]), MQTT_SEPARATOR)
  }

  /** Every topic that is not refused is recovered from its key. */
  lemma TranslationInverts(topic: string)
    requires RoutingKey(topic).Some?
    ensures TopicOfKey(RoutingKey(topic).value) == topic
  {
    WordsOfKey(topic);
    var levels := Split(topic, MQTT_SEPARATOR);
    var words := TranslatedLevels(levels);
    var back := seq(|words|, i requires 0 <= i < |words| =>
                      if words[i] == ROUTING_SINGLE then MQTT_SINGLE else words[i]);
    forall i | 0 <= i < |levels| ensures back[i] == levels[i] {
      assert Carriable(levels[i], i == |levels| - 1);
    }
    assert back == levels;
    JoinSplit(topic, MQTT_SEPARATOR);
  }

  /** The refusals, spelled out on the topic: what makes the translation total. */
  lemma RefusedExactly(topic: string)
    ensures RoutingKey(topic).None? <==>
      var levels := Split(topic, MQTT_SEPARATOR);
      || "" in levels
      || (exists i | 0 <= i < |levels| - 1 :: levels[i] == MULTI)
      || (exists i | 0 <= i < |levels| ::
            levels[i] != MQTT_SINGLE && levels[i] != MULTI &&
            ('.' in levels[i] || '*' in levels[i] || '#' in levels[i] || '+' in levels[i]))
  {
  }

  // ---------------------------------------------------------------- matching

  /** Section 4.7.1 of MQTT 3.1.1, level by level; a final `#` matches its parent level too. */
  predicate MqttLevels(filter: seq<string>, topic: seq<string>) {
    if filter == [] then topic == []
    else if filter == ["#"] then true
    else topic != [] && (filter[0] == "+" || filter[0] == topic[0])
         && MqttLevels(filter[1..], topic[1..])
  }

  /** Section 4.7.2 of MQTT 3.1.1: a leading wildcard does not reach a topic starting with `$`. */
  predicate ReservedGap(filter: string, topic: string) {
    Split(filter, '/')[0] in {"+", "#"} && StartsWith(topic, "$")
  }

  predicate MqttMatches(filter: string, topic: string) {
    MqttLevels(Split(filter, '/'), Split(topic, '/')) && !ReservedGap(filter, topic)
  }

  /** Section 3.1.3.3 of AMQP 0-9-1: `*` is one word, `#` is any number of words, none included. */
  predicate AmqpWords(pattern: seq<string>, key: seq<string>)
    decreases |pattern| + |key|
  {
    if pattern == [] then key == []
    else if pattern[0] == "#" then
      AmqpWords(pattern[1..], key) || (key != [] && AmqpWords(pattern, key[1..]))
    else key != [] && (pattern[0] == "*" || pattern[0] == key[0])
         && AmqpWords(pattern[1..], key[1..])
  }

  predicate AmqpMatches(pattern: string, key: string) {
    AmqpWords(Split(pattern, '.'), Split(key, '.'))
  }

  /** A topic name, as opposed to a filter: no level is a wildcard. */
  predicate IsTopicName(topic: string) {
    forall level | level in Split(topic, '/') :: level != "+" && level != "#"
  }

  lemma {:induction false} HashMatchesAll(key: seq<string>)
    ensures AmqpWords([MULTI], key)
  {
    if key == [] {
      assert AmqpWords([MULTI][1..], key);
    } else {
      HashMatchesAll(key[1..]);
    }
  }

  lemma {:induction false} LevelsMatchAlike(filter: seq<string>, topic: seq<string>)
    requires CarriableLevels(filter)
    requires forall level | level in topic :: Plain(level)
    ensures MqttLevels(filter, topic) <==> AmqpWords(TranslatedLevels(filter), topic)
  {
    var pattern := TranslatedLevels(filter);
    if filter == [MULTI] {
      assert pattern == [MULTI];
      HashMatchesAll(topic);
    } else if filter != [] {
      assert Carriable(filter[0], 0 == |filter| - 1);
      forall i | 0 <= i < |filter[1..]|
        ensures Carriable(filter[1..][i], i == |filter[1..]| - 1)
      {
        assert Carriable(filter[i + 1], i + 1 == |filter| - 1);
      }
      if |filter| == 1 {
        assert filter == [filter[0]];
      }
      if topic != [] {
        assert Plain(topic[0]);
        assert pattern[1..] == TranslatedLevels(filter[1..]);
        LevelsMatchAlike(filter[1..], topic[1..]);
      }
    }
  }

  /**
   Translation preserves matching. For all accepted filters and topic names the broker's match of
   the translated pair is the MQTT match, except where MQTT keeps a leading wildcard away from a
   topic starting with `$`: there, and only there, the translation is wider.
   */
  lemma TranslationPreservesMatching(filter: string, topic: string)
    requires RoutingKey(filter).Some? && RoutingKey(topic).Some?
    requires IsTopicName(topic)
    ensures MqttMatches(filter, topic) <==>
            AmqpMatches(RoutingKey(filter).value, RoutingKey(topic).value) && !ReservedGap(filter, topic)
    ensures !StartsWith(topic, "$") ==>
              (MqttMatches(filter, topic) <==> AmqpMatches(RoutingKey(filter).value, RoutingKey(topic).value))
  {
    WordsOfKey(filter);
    WordsOfKey(topic);
    var levels := Split(topic, MQTT_SEPARATOR);
    forall level | level in levels ensures Plain(level) {
      var i :| 0 <= i < |levels| && levels[i] == level;
      assert Carriable(levels[i], i == |levels| - 1);
    }
    forall i | 0 <= i < |levels| ensures Translated(levels[i]) == levels[i] {
      assert Plain(levels[i]);
    }
    assert TranslatedLevels(levels) == levels;
    LevelsMatchAlike(Split(filter, MQTT_SEPARATOR), levels);
  }

  /** The gap is real: `#` does not match `$SYS` in MQTT, but its key matches the key of `$SYS`. */
  lemma ReservedTopicsAreWider()
    ensures RoutingKey("#").Some? && RoutingKey("$SYS").Some? && IsTopicName("$SYS")
    ensures !MqttMatches("#", "$SYS")
    ensures AmqpMatches(RoutingKey("#").value, RoutingKey("$SYS").value)
  {
    SplitWhole("#", MQTT_SEPARATOR);
    SplitWhole("$SYS", MQTT_SEPARATOR);
    assert Carriable("#", true) && Carriable("$SYS", true);
    WordsOfKey("#");
    WordsOfKey("$SYS");
    assert TranslatedLevels(["#"]) == ["#"] && TranslatedLevels(["$SYS"]) == ["$SYS"];
    HashMatchesAll(["$SYS"]);
  }

  // ---------------------------------------------------------------- ownership

  /** `key` starts with the levels domo, slug, account. */
  predicate InNamespace(slug: string, account: string, key: string) {
    var words := Split(key, ROUTING_SEPARATOR);
    |words| >= 3 && words[..3] == ["domo", slug, account]
  }

  /** In the namespace, something beneath it, no empty level beneath, and `#` at most at the end. */
  predicate Owns(slug: string, account: string, key: string) {
    var words := Split(key, ROUTING_SEPARATOR);
    && InNamespace(slug, account, key)
    && |words| > 3
    && (forall i | 3 <= i < |words| :: words[i] != "")
    && (forall i | 3 <= i < |words| - 1 :: words[i] != MULTI)
  }

  /** Steps through the levels the way an iterator does: three expected levels, then the rest. */
  method OwnsRoutingKey(slug: string, account: string, key: string) returns (owned: bool)
    ensures owned <==> Owns(slug, account, key)
  {
    var levels := Split(key, ROUTING_SEPARATOR);
    var expected := [TOPIC_ROOT, slug, account];
    var next := 0;
    while next < 3
      invariant 0 <= next <= 3 && next <= |levels|
      invariant forall i | 0 <= i < next :: levels[i] == expected[i]
    {
      if next >= |levels| || levels[next] != expected[next] {
        return false;
      }
      next := next + 1;
    }
    assert levels[..3] == expected;
    var beneath := levels[3..];
    if beneath == [] {
      return false;
    }
    for i := 0 to |beneath|
      invariant forall j | 0 <= j < i :: beneath[j] != "" && (j < |beneath| - 1 ==> beneath[j] != MULTI)
    {
      if beneath[i] == "" || (i < |beneath| - 1 && beneath[i] == MULTI) {
        return false;
      }
    }
    forall i | 3 <= i < |levels| ensures levels[i] != "" && (i < |levels| - 1 ==> levels[i] != MULTI) {
      assert beneath[i - 3] == levels[i];
    }
    return true;
  }

  predicate IsWildcard(level: string) { level == ROUTING_SINGLE || level == MULTI }

  /** A slug or account containing the separator owns nothing at all. */
  lemma OwnedMeansSeparatorFree(slug: string, account: string, key: string)
    ensures Owns(slug, account, key) ==> '.' !in slug && '.' !in account
  {
    var words := Split(key, ROUTING_SEPARATOR);
    if InNamespace(slug, account, key) {
      assert words[..3][1] in words && words[..3][2] in words;
    }
  }

  /** No pattern this device owns can match a key outside its namespace. */
  ghost predicate Sealed(slug: string, account: string) {
    forall pattern, key :: Owns(slug, account, pattern) && AmqpMatches(pattern, key) ==> InNamespace(slug, account, key)
  }

  lemma OwnedPatternStaysInside(slug: string, account: string, pattern: string, key: string)
    requires !IsWildcard(slug) && !IsWildcard(account)
    requires Owns(slug, account, pattern) && AmqpMatches(pattern, key)
    ensures InNamespace(slug, account, key)
  {
    var p, k := Split(pattern, ROUTING_SEPARATOR), Split(key, ROUTING_SEPARATOR);
    assert p[..3] == [p[0], p[1], p[2]];
    assert p[1..][0] == p[1] && p[1..][1..][0] == p[2];
    assert AmqpWords(p[1..], k[1..]);
    assert AmqpWords(p[1..][1..], k[1..][1..]);
    assert k[..3] == [k[0], k[1], k[2]];
  }

  lemma {:induction false} FourLevelsMatch(p: seq<string>, k: seq<string>)
    requires |p| == |k|
    requires forall i | 0 <= i < |p| :: p[i] == k[i] || IsWildcard(p[i])
    ensures AmqpWords(p, k)
  {
    if p != [] {
      FourLevelsMatch(p[1..], k[1..]);
      if p[0] == MULTI {
        assert AmqpWords(p, k[1..]) by {
          assert AmqpWords(p[1..], k[1..]);
        }
      }
    }
  }

  /**
   Exactly when the namespace is sealed: neither level is a broker wildcard. (A level containing
   the separator owns nothing, which seals it too.) The slug validator and the UUID shape of
   account ids are what guarantee this.
   */
  lemma SealedExactly(slug: string, account: string)
    ensures Sealed(slug, account) <==>
            ((!IsWildcard(slug) && !IsWildcard(account)) || '.' in slug || '.' in account)
  {
    if '.' in slug || '.' in account {
      forall pattern ensures !Owns(slug, account, pattern) {
        OwnedMeansSeparatorFree(slug, account, pattern);
      }
    } else if IsWildcard(slug) || IsWildcard(account) {
      var p := [TOPIC_ROOT, slug, account, "x"];
      var k := [TOPIC_ROOT, if IsWildcard(slug) then "y" else slug, if IsWildcard(account) then "y" else account, "x"];
      var pattern, key := Join(p, ROUTING_SEPARATOR), Join(k, ROUTING_SEPARATOR);
      SplitJoin(p, ROUTING_SEPARATOR);
      SplitJoin(k, ROUTING_SEPARATOR);
      assert p[..3] == [TOPIC_ROOT, slug, account];
      assert Owns(slug, account, pattern);
      FourLevelsMatch(p, k);
      assert AmqpMatches(pattern, key);
      assert k[..3][1] == k[1] && k[..3][2] == k[2];
      assert !InNamespace(slug, account, key);
    } else {
      forall pattern, key | Owns(slug, account, pattern) && AmqpMatches(pattern, key)
        ensures InNamespace(slug, account, key)
      {
        OwnedPatternStaysInside(slug, account, pattern, key);
      }
    }
  }

  /** Two devices never own patterns that share a key. */
  lemma OwnersNeverShareAKey(slug1: string, account1: string, pattern1: string,
                             slug2: string, account2: string, pattern2: string, key: string)
    requires !IsWildcard(slug1) && !IsWildcard(account1) && !IsWildcard(slug2) && !IsWildcard(account2)
    requires Owns(slug1, account1, pattern1) && AmqpMatches(pattern1, key)
    requires Owns(slug2, account2, pattern2) && AmqpMatches(pattern2, key)
    ensures slug1 == slug2 && account1 == account2
  {
    OwnedPatternStaysInside(slug1, account1, pattern1, key);
    OwnedPatternStaysInside(slug2, account2, pattern2, key);
    var words := Split(key, ROUTING_SEPARATOR);
    assert words[..3][1] == slug1 && words[..3][2] == account1;
    assert words[..3][1] == slug2 && words[..3][2] == account2;
  }

  /** A level that is one level on both sides of the translation. */
  predicate PlainSegment(level: string) { Plain(level) && '/' !in level }

  lemma PrefixLevels(slug: string, account: string, tail: string)
    requires PlainSegment(slug) && PlainSegment(account)
    ensures Split(DevicePrefix(slug, account) + "/" + tail, MQTT_SEPARATOR)
            == [TOPIC_ROOT, slug, account] + Split(tail, MQTT_SEPARATOR)
  {
    var t2 := account + [MQTT_SEPARATOR] + tail;
    var t1 := slug + [MQTT_SEPARATOR] + t2;
    SplitHead(account, tail, MQTT_SEPARATOR);
    SplitHead(slug, t2, MQTT_SEPARATOR);
    SplitHead(TOPIC_ROOT, t1, MQTT_SEPARATOR);
    assert DevicePrefix(slug, account) + "/" + tail == TOPIC_ROOT + "/" + t1;
  }

  lemma WordOf(levels: seq<string>, i: nat)
    requires CarriableLevels(levels) && i < |levels|
    ensures TranslatedLevels(levels)[i] != ""
    ensures i < |levels| - 1 ==> TranslatedLevels(levels)[i] != MULTI
    ensures Plain(TranslatedLevels(levels)[i]) ==> levels[i] == TranslatedLevels(levels)[i]
    ensures Plain(levels[i]) ==> levels[i] == TranslatedLevels(levels)[i]
  {
  }

  lemma UnderThePrefixIsOwned(slug: string, account: string, topic: string)
    requires PlainSegment(slug) && PlainSegment(account) && RoutingKey(topic).Some?
    requires StartsWith(topic, DevicePrefix(slug, account) + "/")
    ensures Owns(slug, account, RoutingKey(topic).value)
  {
    WordsOfKey(topic);
    var levels := Split(topic, MQTT_SEPARATOR);
    var words := TranslatedLevels(levels);
    var prefix := DevicePrefix(slug, account) + "/";
    var tail := topic[|prefix|..];
    assert topic == prefix + tail;
    PrefixLevels(slug, account, tail);
    forall i | 0 <= i < |levels| ensures words[i] != "" && (i < |levels| - 1 ==> words[i] != MULTI) {
      WordOf(levels, i);
    }
    assert words[..3] == [TOPIC_ROOT, slug, account];
  }

  lemma OwnedIsUnderThePrefix(slug: string, account: string, topic: string)
    requires PlainSegment(slug) && PlainSegment(account) && RoutingKey(topic).Some?
    requires Owns(slug, account, RoutingKey(topic).value)
    ensures StartsWith(topic, DevicePrefix(slug, account) + "/")
  {
    WordsOfKey(topic);
    var levels := Split(topic, MQTT_SEPARATOR);
    var words := TranslatedLevels(levels);
    assert words[..3] == [words[0], words[1], words[2]];
    WordOf(levels, 0);
    WordOf(levels, 1);
    WordOf(levels, 2);
    var rest := levels[3..];
    assert levels == [TOPIC_ROOT, slug, account] + rest;
    var tail := Join(rest, MQTT_SEPARATOR);
    forall level | level in rest ensures MQTT_SEPARATOR !in level {
      assert level in levels;
    }
    SplitJoin(rest, MQTT_SEPARATOR);
    PrefixLevels(slug, account, tail);
    JoinSplit(topic, MQTT_SEPARATOR);
    JoinSplit(DevicePrefix(slug, account) + "/" + tail, MQTT_SEPARATOR);
    assert topic == DevicePrefix(slug, account) + "/" + tail;
  }

  /** For accepted topics, owning the key is lying under the device prefix and a separator. */
  lemma OwnershipIsThePrefix(slug: string, account: string, topic: string)
    requires PlainSegment(slug) && PlainSegment(account)
    requires RoutingKey(topic).Some?
    ensures Owns(slug, account, RoutingKey(topic).value) <==>
            StartsWith(topic, DevicePrefix(slug, account) + "/")
  {
    if StartsWith(topic, DevicePrefix(slug, account) + "/") {
      UnderThePrefixIsOwned(slug, account, topic);
    } else if Owns(slug, account, RoutingKey(topic).value) {
      OwnedIsUnderThePrefix(slug, account, topic);
    }
  }
}
