/** `IoTMonitorComponent` of the risk-assessment front end: the alert list
    (newest first, at most ten), the metrics history (oldest first, at most
    twenty), the safety score that alerts lower but never below zero, the
    trip clock, the colour bands and `h:mm:ss` formatting. */
module IotMonitor {
  import opened JsonValues
  import opened Text

  /** The readings the component looks at, taken as whole numbers. */
  datatype Metrics = Metrics(speed: int, rpm: int, engineTemp: int, harshBraking: int, harshAcceleration: int)

  /** An alert without its timestamp. */
  datatype Alert = Alert(kind: string, message: string)

  const AlertLimit: nat := 10
  const HistoryLimit: nat := 20
  const InitialSafetyScore: int := 85
  /** Seconds between two readings of the monitoring interval. */
  const TickSeconds: nat := 3

  /** A number rendered by a template literal. */
  function IntText(n: int): string
  {
    if n < 0 then "-" + NatToString(-n) else NatToString(n)
  }

  /** `alerts.unshift(a)` followed by at most one `pop`. */
  function PushAlert(alerts: seq<Alert>, a: Alert): (r: seq<Alert>)
    ensures r != [] && r[0] == a
    ensures |alerts| <= AlertLimit ==> |r| <= AlertLimit
  {
    var grown := [a] + alerts;
    if |grown| > AlertLimit then grown[..|grown| - 1] else grown
  }

  /** The new alert is first, the older ones follow in order, and only the
      oldest falls off once the list is full. */
  lemma PushAlertShape(alerts: seq<Alert>, a: Alert)
    requires |alerts| <= AlertLimit
    ensures var r := PushAlert(alerts, a);
            && |r| <= AlertLimit
            && r[0] == a
            && r[1..] == alerts[..|r| - 1]
            && (|alerts| < AlertLimit ==> r[1..] == alerts)
  {
  }

  /** Several `addAlert` calls in turn. */
  function PushAlerts(alerts: seq<Alert>, raised: seq<Alert>): seq<Alert>
    decreases |raised|
  {
    if raised == [] then alerts
    else PushAlerts(PushAlert(alerts, raised[0]), raised[1..])
  }

  lemma {:induction false} PushAlertsBound(alerts: seq<Alert>, raised: seq<Alert>)
    requires |alerts| <= AlertLimit
    ensures |PushAlerts(alerts, raised)| <= AlertLimit
    ensures raised != [] ==> PushAlerts(alerts, raised) != [] && PushAlerts(alerts, raised)[0] == raised[|raised| - 1]
    decreases |raised|
  {
    if raised != [] {
      PushAlertShape(alerts, raised[0]);
      PushAlertsBound(PushAlert(alerts, raised[0]), raised[1..]);
    }
  }

  function SpeedAlert(speed: int): Alert
  {
    Alert("warning", "High speed detected: " + IntText(speed) + " km/h")
  }

  function EngineAlert(engineTemp: int): Alert
  {
    Alert("danger", "High engine temperature: " + IntText(engineTemp) + "\U{00B0}C")
  }

  const BrakingAlert: Alert := Alert("warning", "Sudden braking detected")
  const AccelerationAlert: Alert := Alert("warning", "Sudden acceleration detected")

  /** The alerts `checkForAlerts` raises for one reading, in order. */
  function RaisedAlerts(m: Metrics): (r: seq<Alert>)
    ensures |r| <= 4
  {
    (if m.speed > 100 then [SpeedAlert(m.speed)] else [])
    + (if m.engineTemp > 100 then [EngineAlert(m.engineTemp)] else [])
    + (if m.harshBraking > 3 then [BrakingAlert] else [])
    + (if m.harshAcceleration > 3 then [AccelerationAlert] else [])
  }

  /** At most four alerts, none for a calm reading, and the danger alert
      exactly for an engine above 100. */
  lemma RaisedAlertsShape(m: Metrics)
    ensures |RaisedAlerts(m)| <= 4
    ensures RaisedAlerts(m) == [] <==>
              m.speed <= 100 && m.engineTemp <= 100 && m.harshBraking <= 3 && m.harshAcceleration <= 3
    ensures (exists i :: 0 <= i < |RaisedAlerts(m)| && RaisedAlerts(m)[i].kind == "danger") <==> m.engineTemp > 100
  {
    var r := RaisedAlerts(m);
    if m.engineTemp > 100 {
      var i := if m.speed > 100 then 1 else 0;
      assert r[i].kind == "danger";
    }
  }

  /** `Math.max(0, score - 2)` on harsh braking, then `Math.max(0, score - 1)`
      on harsh acceleration. */
  function ScoreAfter(score: int, m: Metrics): (s: int)
    ensures score >= 0 ==> 0 <= s <= score
  {
    var s1 := if m.harshBraking > 3 then (if score - 2 > 0 then score - 2 else 0) else score;
    if m.harshAcceleration > 3 then (if s1 - 1 > 0 then s1 - 1 else 0) else s1
  }

  /** The score never rises and never goes below zero; well above zero it
      drops by exactly 2 for braking and 1 for acceleration. */
  lemma ScoreAfterBounds(score: int, m: Metrics)
    requires score >= 0
    ensures 0 <= ScoreAfter(score, m) <= score
    ensures score >= 3 ==>
              ScoreAfter(score, m) == score - (if m.harshBraking > 3 then 2 else 0) - (if m.harshAcceleration > 3 then 1 else 0)
  {
  }

  /** `history.push(m)` followed by at most one `shift`. */
  function Record(history: seq<Metrics>, m: Metrics): (r: seq<Metrics>)
    ensures r != [] && r[|r| - 1] == m
    ensures |history| <= HistoryLimit ==> |r| <= HistoryLimit
  {
    var grown := history + [m];
    if |grown| > HistoryLimit then grown[1..] else grown
  }

  lemma RecordShape(history: seq<Metrics>, m: Metrics)
    requires |history| <= HistoryLimit
    ensures var r := Record(history, m);
            && |r| <= HistoryLimit && r != [] && r[|r| - 1] == m
            && r[..|r| - 1] == history[|history| + 1 - |r|..]
  {
  }

  datatype Color = Grey | Red | Amber | Green

  /** Rendered as the component's hex codes. */
  function Hex(c: Color): string
  {
    match c
    case Grey => "#6b7280"
    case Red => "#ef4444"
    case Amber => "#f59e0b"
    case Green => "#10b981"
  }

  /** Above `high` red, above `mid` amber, otherwise green. */
  function Band(value: int, high: int, mid: int): (c: Color)
    ensures c != Grey
    ensures c == Red <==> value > high
  {
    if value > high then Red else if value > mid then Amber else Green
  }

  /** How alarming a colour is. */
  function Severity(c: Color): nat
  {
    match c
    case Grey => 0
    case Green => 0
    case Amber => 1
    case Red => 2
  }

  lemma BandMonotone(v1: int, v2: int, high: int, mid: int)
    requires v1 <= v2 && mid <= high
    ensures Severity(Band(v1, high, mid)) <= Severity(Band(v2, high, mid))
    ensures Band(v1, high, mid) == Red <==> v1 > high
    ensures Band(v1, high, mid) == Green <==> v1 <= mid
  {
  }

  /** `getSafetyColor`: at least 80 green, at least 60 amber, else red. */
  function SafetyBand(score: int): (c: Color)
    ensures c == Green <==> score >= 80
    ensures c == Red <==> score < 60
  {
    if score >= 80 then Green else if score >= 60 then Amber else Red
  }

  /** Two-digit `padStart(2, '0')` of a number below 60. */
  function Pad2(n: nat): (r: string)
    requires n < 60
    ensures |r| == 2 && AllDigits(r) && DigitsValue(r) == n
  {
    DigitsValueOfNatToString(n);
    if n < 10 then "0" + NatToString(n)
    else
      assert NatToString(n) == NatToString(n / 10) + [DigitChar(n % 10)];
      NatToString(n)
  }

  /** `formatDuration` for a whole number of seconds. */
  function FormatDuration(seconds: nat): (f: string)
    ensures |f| >= 7 && f[|f| - 6] == ':' && f[|f| - 3] == ':'
  {
    NatToString(seconds / 3600) + ":" + Pad2(seconds % 3600 / 60) + ":" + Pad2(seconds % 60)
  }

  /** Reading the text back: hours before the first colon, two digits of
      minutes and two of seconds, each below 60, adding up to the input. */
  lemma FormatDurationReadsBack(seconds: nat)
    ensures var f := FormatDuration(seconds);
            && |f| >= 7 && f[|f| - 6] == ':' && f[|f| - 3] == ':'
            && AllDigits(f[..|f| - 6]) && AllDigits(f[|f| - 5..|f| - 3]) && AllDigits(f[|f| - 2..])
            && DigitsValue(f[|f| - 5..|f| - 3]) < 60 && DigitsValue(f[|f| - 2..]) < 60
            && DigitsValue(f[..|f| - 6]) * 3600 + DigitsValue(f[|f| - 5..|f| - 3]) * 60 + DigitsValue(f[|f| - 2..]) == seconds
  {
    var h, mm, ss := NatToString(seconds / 3600), Pad2(seconds % 3600 / 60), Pad2(seconds % 60);
    var f := FormatDuration(seconds);
    assert f == h + ":" + mm + ":" + ss;
    assert f[..|f| - 6] == h;
    assert f[|f| - 5..|f| - 3] == mm;
    assert f[|f| - 2..] == ss;
    DigitsValueOfNatToString(seconds / 3600);
    HmsSum(seconds);
  }

  lemma HmsSum(seconds: nat)
    ensures (seconds / 3600) * 3600 + (seconds % 3600 / 60) * 60 + seconds % 60 == seconds
  {
    var r := seconds % 3600;
    assert seconds == (seconds / 3600) * 3600 + r;
    assert r == (r / 60) * 60 + r % 60;
    assert r % 60 == seconds % 60 by {
      assert seconds == (seconds / 3600) * 60 * 60 + r;
    }
  }

  class IotMonitorComponent {
    var deviceId: string
    var currentMetrics: Option<Metrics>
    var metricsHistory: seq<Metrics>
    var isMonitoring: bool
    /** Whether the interval subscription is held. */
    var subscribed: bool
    var alerts: seq<Alert>
    var safetyScore: int
    var tripDuration: int

    /** The bounds the component keeps. */
    predicate Valid()
      reads this
    {
      |alerts| <= AlertLimit && |metricsHistory| <= HistoryLimit && safetyScore >= 0 && tripDuration >= 0
    }

    constructor()
      ensures deviceId == "OBD-001" && currentMetrics == None && metricsHistory == []
      ensures !isMonitoring && !subscribed && alerts == []
      ensures safetyScore == InitialSafetyScore && tripDuration == 0
      ensures Valid()
    {
      deviceId := "OBD-001";
      currentMetrics := None;
      metricsHistory := [];
      isMonitoring := false;
      subscribed := false;
      alerts := [];
      safetyScore := InitialSafetyScore;
      tripDuration := 0;
    }

    /** The reply to `loadInitialData`: stored and appended, without the
        cap the monitoring tick applies. */
    method LoadInitialData(m: Metrics)
      modifies this
      ensures currentMetrics == Some(m) && metricsHistory == old(metricsHistory) + [m]
      ensures alerts == old(alerts) && safetyScore == old(safetyScore) && tripDuration == old(tripDuration)
      ensures isMonitoring == old(isMonitoring) && subscribed == old(subscribed) && deviceId == old(deviceId)
    {
      currentMetrics := Some(m);
      metricsHistory := metricsHistory + [m];
    }

    /** `startMonitoring`: the flag is set and the interval subscribed. */
    method StartMonitoring()
      modifies this
      ensures isMonitoring && subscribed
      ensures currentMetrics == old(currentMetrics) && metricsHistory == old(metricsHistory)
      ensures alerts == old(alerts) && safetyScore == old(safetyScore) && tripDuration == old(tripDuration)
      ensures deviceId == old(deviceId)
    {
      isMonitoring := true;
      subscribed := true;
    }

    /** `stopMonitoring`, also run on a monitoring error and on destroy. */
    method StopMonitoring()
      modifies this
      ensures !isMonitoring && !subscribed
      ensures currentMetrics == old(currentMetrics) && metricsHistory == old(metricsHistory)
      ensures alerts == old(alerts) && safetyScore == old(safetyScore) && tripDuration == old(tripDuration)
      ensures deviceId == old(deviceId)
    {
      isMonitoring := false;
      if subscribed {
        subscribed := false;
      }
    }

    /** `addAlert`. */
    method AddAlert(kind: string, message: string)
      modifies this
      ensures alerts == PushAlert(old(alerts), Alert(kind, message))
      ensures currentMetrics == old(currentMetrics) && metricsHistory == old(metricsHistory)
      ensures safetyScore == old(safetyScore) && tripDuration == old(tripDuration)
      ensures isMonitoring == old(isMonitoring) && subscribed == old(subscribed) && deviceId == old(deviceId)
    {
      alerts := [Alert(kind, message)] + alerts;
      if |alerts| > AlertLimit {
        alerts := alerts[..|alerts| - 1];
      }
    }

    /** `checkForAlerts`: the four tests in order, each adding its alert. */
    method CheckForAlerts(m: Metrics)
      modifies this
      ensures alerts == PushAlerts(old(alerts), RaisedAlerts(m))
      ensures safetyScore == ScoreAfter(old(safetyScore), m)
      ensures currentMetrics == old(currentMetrics) && metricsHistory == old(metricsHistory)
      ensures tripDuration == old(tripDuration)
      ensures isMonitoring == old(isMonitoring) && subscribed == old(subscribed) && deviceId == old(deviceId)
    {
      ghost var start := alerts;
      if m.speed > 100 {
        var a := SpeedAlert(m.speed);
        AddAlert(a.kind, a.message);
        PushAlertsSnoc(start, [], a);
        assert [] + [a] == [a];
      }
      ghost var raised := if m.speed > 100 then [SpeedAlert(m.speed)] else [];
      assert alerts == PushAlerts(start, raised);
      if m.engineTemp > 100 {
        var a := EngineAlert(m.engineTemp);
        AddAlert(a.kind, a.message);
        PushAlertsSnoc(start, raised, a);
      } else {
        assert raised + [] == raised;
      }
      raised := raised + (if m.engineTemp > 100 then [EngineAlert(m.engineTemp)] else []);
      assert alerts == PushAlerts(start, raised);
      if m.harshBraking > 3 {
        var a := BrakingAlert;
        AddAlert(a.kind, a.message);
        PushAlertsSnoc(start, raised, a);
        safetyScore := if safetyScore - 2 > 0 then safetyScore - 2 else 0;
      } else {
        assert raised + [] == raised;
      }
      raised := raised + (if m.harshBraking > 3 then [BrakingAlert] else []);
      assert alerts == PushAlerts(start, raised);
      if m.harshAcceleration > 3 {
        var a := AccelerationAlert;
        AddAlert(a.kind, a.message);
        PushAlertsSnoc(start, raised, a);
        safetyScore := if safetyScore - 1 > 0 then safetyScore - 1 else 0;
      } else {
        assert raised + [] == raised;
      }
      raised := raised + (if m.harshAcceleration > 3 then [AccelerationAlert] else []);
      assert alerts == PushAlerts(start, raised);
      assert raised == RaisedAlerts(m);
    }

    /** `updateTripStats`, without the distance, which is a float. */
    method UpdateTripStats()
      modifies this
      ensures tripDuration == old(tripDuration) + TickSeconds
      ensures currentMetrics == old(currentMetrics) && metricsHistory == old(metricsHistory)
      ensures alerts == old(alerts) && safetyScore == old(safetyScore)
      ensures isMonitoring == old(isMonitoring) && subscribed == old(subscribed) && deviceId == old(deviceId)
    {
      tripDuration := tripDuration + TickSeconds;
    }

    /** One reading delivered by the monitoring interval. */
    method Tick(m: Metrics)
      modifies this
      ensures currentMetrics == Some(m)
      ensures metricsHistory == Record(old(metricsHistory), m)
      ensures alerts == PushAlerts(old(alerts), RaisedAlerts(m))
      ensures safetyScore == ScoreAfter(old(safetyScore), m)
      ensures tripDuration == old(tripDuration) + TickSeconds
      ensures isMonitoring == old(isMonitoring) && subscribed == old(subscribed) && deviceId == old(deviceId)
      ensures old(Valid()) ==> Valid()
    {
      currentMetrics := Some(m);
      metricsHistory := metricsHistory + [m];
      if |metricsHistory| > HistoryLimit {
        metricsHistory := metricsHistory[1..];
      }
      CheckForAlerts(m);
      UpdateTripStats();
      if old(Valid()) {
        PushAlertsBound(old(alerts), RaisedAlerts(m));
        ScoreAfterBounds(old(safetyScore), m);
      }
    }

    /** `resetTrip`. */
    method ResetTrip()
      modifies this
      ensures tripDuration == 0 && safetyScore == InitialSafetyScore
      ensures metricsHistory == [] && alerts == []
      ensures currentMetrics == old(currentMetrics)
      ensures isMonitoring == old(isMonitoring) && subscribed == old(subscribed) && deviceId == old(deviceId)
      ensures Valid()
    {
      tripDuration := 0;
      safetyScore := InitialSafetyScore;
      metricsHistory := [];
      alerts := [];
    }

    /** `getSpeedColor`, `getRpmColor`, `getEngineColor`: grey before any
        reading, then the reading's band. */
    function SpeedColor(): (c: Color)
      reads this
      ensures c == Grey <==> currentMetrics.None?
      ensures currentMetrics.Some? ==> c == Band(currentMetrics.value.speed, 100, 80)
    {
      if currentMetrics.None? then Grey else Band(currentMetrics.value.speed, 100, 80)
    }

    function RpmColor(): (c: Color)
      reads this
      ensures c == Grey <==> currentMetrics.None?
      ensures currentMetrics.Some? ==> c == Band(currentMetrics.value.rpm, 4000, 3000)
    {
      if currentMetrics.None? then Grey else Band(currentMetrics.value.rpm, 4000, 3000)
    }

    function EngineColor(): (c: Color)
      reads this
      ensures c == Grey <==> currentMetrics.None?
      ensures currentMetrics.Some? ==> c == Band(currentMetrics.value.engineTemp, 100, 95)
    {
      if currentMetrics.None? then Grey else Band(currentMetrics.value.engineTemp, 100, 95)
    }

    function SafetyColor(): Color
      reads this
    {
      SafetyBand(safetyScore)
    }
  }

  /** Pushing one more alert after a run of pushes. */
  lemma {:induction false} PushAlertsSnoc(alerts: seq<Alert>, raised: seq<Alert>, a: Alert)
    ensures PushAlerts(alerts, raised + [a]) == PushAlert(PushAlerts(alerts, raised), a)
    decreases |raised|
  {
    if raised == [] {
      assert [] + [a] == [a];
    } else {
      assert (raised + [a])[1..] == raised[1..] + [a];
      PushAlertsSnoc(PushAlert(alerts, raised[0]), raised[1..], a);
    }
  }
}
