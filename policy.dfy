/** The policy engine (src/policy.rs): pure decisions over an immutable
    configuration. `should_notify` filters events by status, whitelist and
    duration; `match_template` picks the presentation template for a command. */
module Policy {
  import opened Wrappers
  import opened Text

  datatype NotificationStatus = Success | Error | Pending

  /** `threshold` section: minimum duration in seconds and the command whitelist. */
  datatype ThresholdConfig = ThresholdConfig(minDuration: nat, whitelist: seq<string>)

  datatype TemplateConfig = TemplateConfig(icon: string, sound: string, duration: nat)

  /** `aggregation` section: `window` is in milliseconds. */
  datatype AggregationConfig = AggregationConfig(enabled: bool, window: nat, maxToasts: nat)

  /** The parts of the configuration the policy engine and the aggregator read.
      `custom` is the map from template name to template. */
  datatype Config = Config(
    threshold: ThresholdConfig,
    defaultTemplate: TemplateConfig,
    custom: map<string, TemplateConfig>,
    aggregation: AggregationConfig)

  /** The configuration written when none exists (src/config.rs). */
  function DefaultConfig(): Config {
    Config(
      ThresholdConfig(10, []),
      TemplateConfig("auto", "default", 5000),
      map[],
      AggregationConfig(true, 5000, 3))
  }

  // ---------------------------------------------------------------------------
  // should_notify
  // ---------------------------------------------------------------------------

  /** Some whitelist entry occurs in `cmd`. */
  ghost predicate Whitelisted(cmd: string, whitelist: seq<string>) {
    exists k :: 0 <= k < |whitelist| && Contains(cmd, whitelist[k])
  }

  /** The early-return scan of the whitelist, in its declared order. */
  function ScanWhitelist(cmd: string, whitelist: seq<string>): (hit: bool)
    ensures hit <==> Whitelisted(cmd, whitelist)
  {
    if |whitelist| == 0 then false
    else if Contains(cmd, whitelist[0]) then true
    else
      var hit := ScanWhitelist(cmd, whitelist[1..]);
      assert Whitelisted(cmd, whitelist) ==> Whitelisted(cmd, whitelist[1..]) by {
        if Whitelisted(cmd, whitelist) {
          var k :| 0 <= k < |whitelist| && Contains(cmd, whitelist[k]);
          assert k > 0 && whitelist[1..][k - 1] == whitelist[k];
        }
      }
      hit
  }

  /** Errors always notify; otherwise a whitelisted command notifies; otherwise
      the duration must reach the threshold. */
  function ShouldNotify(config: Config, status: NotificationStatus, durationSec: nat, cmd: string): (notify: bool)
    ensures status == Error ==> notify
    ensures status != Error && Whitelisted(cmd, config.threshold.whitelist) ==> notify
    ensures status != Error && !Whitelisted(cmd, config.threshold.whitelist) ==>
              (notify <==> durationSec >= config.threshold.minDuration)
  {
    if status == Error then true
    else if ScanWhitelist(cmd, config.threshold.whitelist) then true
    else durationSec >= config.threshold.minDuration
  }

  /** A longer run of the same command with the same status is never suppressed
      when a shorter one is notified. */
  lemma ShouldNotifyMonotone(config: Config, status: NotificationStatus, d: nat, d': nat, cmd: string)
    requires d <= d' && ShouldNotify(config, status, d, cmd)
    ensures ShouldNotify(config, status, d', cmd)
  {
  }

  /** Below the threshold, a non-error, non-whitelisted event is suppressed. */
  lemma ShouldNotifyBelowThreshold(config: Config, status: NotificationStatus, d: nat, cmd: string)
    requires status != Error && !Whitelisted(cmd, config.threshold.whitelist)
    requires d < config.threshold.minDuration
    ensures !ShouldNotify(config, status, d, cmd)
  {
  }

  /** The unit tests of src/policy.rs under the default configuration, and the
      whitelist test with `deploy` whitelisted. */
  lemma ShouldNotifyExamples()
    ensures ShouldNotify(DefaultConfig(), Error, 1, "test")
    ensures ShouldNotify(DefaultConfig(), Error, 100, "test")
    ensures !ShouldNotify(DefaultConfig(), Success, 5, "test")
    ensures ShouldNotify(DefaultConfig(), Success, 15, "test")
    ensures ShouldNotify(DefaultConfig().(threshold := ThresholdConfig(10, ["deploy"])), Success, 3, "deploy")
  {
    assert IsPrefix("deploy", "deploy");
  }

  // ---------------------------------------------------------------------------
  // match_template
  // ---------------------------------------------------------------------------

  /** The first name in `order` that occurs in `cmd`. */
  function FirstMatch(order: seq<string>, cmd: string): (found: Option<string>)
    ensures found.Some? ==> found.value in order && Contains(cmd, found.value)
    ensures found.Some? ==> exists i :: 0 <= i < |order| && order[i] == found.value
                                        && forall j :: 0 <= j < i ==> !Contains(cmd, order[j])
    ensures found.None? <==> forall k :: k in order ==> !Contains(cmd, k)
  {
    if |order| == 0 then None
    else if Contains(cmd, order[0]) then Some(order[0])
    else
      var found := FirstMatch(order[1..], cmd);
      assert forall k :: k in order ==> k == order[0] || k in order[1..];
      found
  }

  /** `match_template`: the name of a custom template that occurs in `cmd`, else
      "default". The map is iterated in an order the program does not control;
      `order` is that iteration order, listing exactly the custom names. */
  function MatchTemplate(config: Config, cmd: string, order: seq<string>): (name: Option<string>)
    requires forall k :: k in order <==> k in config.custom
    ensures name.Some?
    ensures (exists k :: k in config.custom && Contains(cmd, k)) ==>
              name.value in config.custom && Contains(cmd, name.value)
    ensures (forall k :: k in config.custom ==> !Contains(cmd, k)) ==> name == Some("default")
  {
    match FirstMatch(order, cmd)
    case Some(k) => Some(k)
    case None => Some("default")
  }

  /** When exactly one custom name occurs in the command, every iteration order
      selects it. */
  lemma MatchTemplateUnique(config: Config, cmd: string, order: seq<string>, k: string)
    requires forall j :: j in order <==> j in config.custom
    requires k in config.custom && Contains(cmd, k)
    requires forall j :: j in config.custom && Contains(cmd, j) ==> j == k
    ensures MatchTemplate(config, cmd, order) == Some(k)
  {
  }

  /** The unit test of src/policy.rs: with a `build` template, "npm run build"
      selects it and "npm test" falls back to "default". */
  lemma MatchTemplateExamples()
    ensures var config := DefaultConfig().(custom := map["build" := TemplateConfig("build.png", "build.wav", 8000)]);
            MatchTemplate(config, "npm run build", ["build"]) == Some("build")
            && MatchTemplate(config, "npm test", ["build"]) == Some("default")
  {
    var s := "npm run build";
    assert s[8..13] == "build";
    OccursAtContains(s, "build", 8);
    if Contains("npm test", "build") {
      ContainsFirstChar("npm test", "build");
      assert false;
    }
  }

  // ---------------------------------------------------------------------------
  // should_aggregate, aggregation_window
  // ---------------------------------------------------------------------------

  function ShouldAggregate(config: Config): bool {
    config.aggregation.enabled
  }

  function AggregationWindow(config: Config): nat {
    config.aggregation.window
  }

  /** With the default configuration aggregation is on with a 5000 ms window. */
  lemma DefaultAggregationSettings()
    ensures ShouldAggregate(DefaultConfig()) && AggregationWindow(DefaultConfig()) == 5000
  {
  }
}
