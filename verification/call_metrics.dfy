/**
 * The call overlay (features/call/components/CallMetrics.tsx): the elapsed-time display,
 * the network-quality badge, the participant count, and the component's two pieces of
 * state, a per-second duration counter and a recording flag set by room events.
 */
module CallMetrics {

  import opened Optional
  import opened Text

  /** The fields the display shows: hours (when shown), minutes and seconds. */
  datatype DurationFields = DurationFields(hours: Option<nat>, minutes: nat, seconds: nat)

  function TotalSeconds(f: DurationFields): nat
  {
    (if f.hours.Some? then f.hours.value else 0) * 3600 + f.minutes * 60 + f.seconds
  }

  /** The split into whole hours, minutes within the hour and seconds within the minute. */
  function SplitDuration(seconds: nat): (r: (nat, nat, nat))
    ensures r.1 < 60 && r.2 < 60
    ensures r.0 * 3600 + r.1 * 60 + r.2 == seconds
  {
    (seconds / 3600, (seconds % 3600) / 60, seconds % 60)
  }

  /** `formatDuration`: `H:MM:SS` from one hour on, `M:SS` below. */
  function FormatDuration(seconds: nat): string
  {
    var (hrs, mins, secs) := SplitDuration(seconds);
    if hrs > 0 then Decimal(hrs) + ":" + TwoDigits(mins) + ":" + TwoDigits(secs)
    else Decimal(mins) + ":" + TwoDigits(secs)
  }

  /**
   * Reads a display string back: the leading field is a numeral without leading zeros, every
   * later field exactly two digits; three fields are `H:MM:SS`, two are `M:SS`.
   */
  function ParseDuration(t: string): Option<DurationFields>
  {
    if |t| < 3 || t[|t| - 3] != ':' || !AllDigits(t[|t| - 2..]) then None
    else
      var secs := DigitsValue(t[|t| - 2..]);
      var rest := t[..|t| - 3];
      if |rest| >= 3 && rest[|rest| - 3] == ':' then
        var head := rest[..|rest| - 3];
        if Canonical(head) && AllDigits(rest[|rest| - 2..]) then
          Some(DurationFields(Some(DigitsValue(head)), DigitsValue(rest[|rest| - 2..]), secs))
        else None
      else if Canonical(rest) then Some(DurationFields(None, DigitsValue(rest), secs))
      else None
  }

  /** Reading back a three-field display. */
  lemma ParseLongForm(h: string, m: string, sec: string)
    requires Canonical(h) && |m| == 2 && AllDigits(m) && |sec| == 2 && AllDigits(sec)
    ensures ParseDuration(h + ":" + m + ":" + sec)
         == Some(DurationFields(Some(DigitsValue(h)), DigitsValue(m), DigitsValue(sec)))
  {
    var rest := h + ":" + m;
    var t := rest + ":" + sec;
    assert t[|t| - 3] == ':' && t[|t| - 2..] == sec && t[..|t| - 3] == rest;
    assert rest[|rest| - 3] == ':' && rest[|rest| - 2..] == m && rest[..|rest| - 3] == h;
  }

  /** Reading back a two-field display whose minutes have at most two digits. */
  lemma ParseShortForm(m: string, sec: string)
    requires Canonical(m) && |m| <= 2 && |sec| == 2 && AllDigits(sec)
    ensures ParseDuration(m + ":" + sec) == Some(DurationFields(None, DigitsValue(m), DigitsValue(sec)))
  {
    var t := m + ":" + sec;
    assert t[|t| - 3] == ':' && t[|t| - 2..] == sec && t[..|t| - 3] == m;
  }

  /** The display reads back to the fields of the split, with the hours field present when it is non-zero. */
  lemma FormatDurationFields(seconds: nat)
    ensures var split := SplitDuration(seconds);
      ParseDuration(FormatDuration(seconds))
      == Some(DurationFields(if split.0 > 0 then Some(split.0) else None, split.1, split.2))
  {
    var split := SplitDuration(seconds);
    var hrs, mins, secs := split.0, split.1, split.2;
    TwoDigitsValue(mins);
    TwoDigitsValue(secs);
    DecimalRoundTrip(hrs);
    DecimalRoundTrip(mins);
    if hrs > 0 {
      ParseLongForm(Decimal(hrs), TwoDigits(mins), TwoDigits(secs));
    } else {
      ParseShortForm(Decimal(mins), TwoDigits(secs));
    }
  }

  /**
   * The display is exact: it reads back to fields with minutes and seconds below sixty,
   * an hours field precisely from one hour on, and the same total number of seconds.
   */
  lemma FormatDurationRoundTrip(seconds: nat)
    ensures ParseDuration(FormatDuration(seconds)).Some?
    ensures var f := ParseDuration(FormatDuration(seconds)).value;
      TotalSeconds(f) == seconds && f.minutes < 60 && f.seconds < 60 &&
      (f.hours.Some? <==> seconds >= 3600) && (f.hours.Some? ==> f.hours.value > 0)
  {
    FormatDurationFields(seconds);
    var split := SplitDuration(seconds);
    assert split.0 > 0 <==> seconds >= 3600;
  }

  /** Different durations never show the same text. */
  lemma FormatDurationInjective(a: nat, b: nat)
    ensures FormatDuration(a) == FormatDuration(b) ==> a == b
  {
    FormatDurationRoundTrip(a);
    FormatDurationRoundTrip(b);
  }

  /** `ConnectionQuality` of the media SDK. */
  datatype ConnectionQuality = Excellent | Good | Poor | Lost | Unknown

  datatype Icon = Wifi | WifiOff

  /** What the network badge shows. */
  datatype NetworkInfo = NetworkInfo(text: string, color: string, bgColor: string, icon: Icon)

  /** `getNetworkQuality`: the badge for each connection quality; the default arm covers `Unknown`. */
  function NetworkQuality(q: ConnectionQuality): (r: NetworkInfo)
    ensures r.icon == WifiOff <==> q == Lost
    ensures r.color == "text-green-500" <==> q == Excellent || q == Good
    ensures r.color == "text-yellow-500" <==> q == Poor
    ensures r.color == "text-red-500" <==> q == Lost
    ensures r.color == "text-slate-400" <==> q == Unknown
  {
    match q
    case Excellent => NetworkInfo("Excellent", "text-green-500", "bg-green-500/20", Wifi)
    case Good => NetworkInfo("Good", "text-green-500", "bg-green-500/20", Wifi)
    case Poor => NetworkInfo("Poor", "text-yellow-500", "bg-yellow-500/20", Wifi)
    case Lost => NetworkInfo("Lost", "text-red-500", "bg-red-500/20", WifiOff)
    case Unknown => NetworkInfo("Unknown", "text-slate-400", "bg-slate-500/20", Wifi)
  }

  /** The label names the quality: reading it back recovers the quality. */
  function QualityOfLabel(caption: string): Option<ConnectionQuality>
  {
    if caption == "Excellent" then Some(Excellent)
    else if caption == "Good" then Some(Good)
    else if caption == "Poor" then Some(Poor)
    else if caption == "Lost" then Some(Lost)
    else if caption == "Unknown" then Some(Unknown)
    else None
  }

  lemma NetworkLabelNamesQuality(q: ConnectionQuality)
    ensures QualityOfLabel(NetworkQuality(q).text) == Some(q)
  {
  }

  /** What the quality hook hands back: a CSS class name together with the observed quality. */
  datatype QualityIndicator = QualityIndicator(className: string, quality: ConnectionQuality)

  /** The value `switch (connectionQuality)` inspects: a bare enum value, or the hook's object. */
  datatype SwitchSubject = QualityValue(q: ConnectionQuality) | IndicatorObject(indicator: QualityIndicator)

  /**
   * The `switch` of `getNetworkQuality`: a `case` is taken only for a strictly equal enum
   * value, so an object never matches one and falls through to the default arm.
   */
  function NetworkQualityOf(v: SwitchSubject): (r: NetworkInfo)
    ensures v.QualityValue? ==> QualityOfLabel(r.text) == Some(v.q)
    ensures v.IndicatorObject? ==> QualityOfLabel(r.text) == Some(Unknown)
  {
    match v
    case QualityValue(q) => NetworkQuality(q)
    case IndicatorObject(_) => NetworkQuality(Unknown)
  }

  /** As written: the component switches on the hook's whole return value. */
  function NetworkQualityAsWritten(indicator: QualityIndicator): NetworkInfo
  {
    NetworkQualityOf(IndicatorObject(indicator))
  }

  /** As written, the badge reads "Unknown" in slate whatever the connection's quality is. */
  lemma AsWrittenBadgeIgnoresQuality(indicator: QualityIndicator)
    ensures NetworkQualityAsWritten(indicator).text == "Unknown"
    ensures NetworkQualityAsWritten(indicator).color == "text-slate-400"
  {
  }

  /** An excellent connection is shown as "Unknown". */
  lemma AsWrittenMisreportsExcellent()
    ensures NetworkQualityAsWritten(QualityIndicator("", Excellent)).text != NetworkQuality(Excellent).text
  {
  }

  /** The evidently intended badge: the mapping applied to the indicator's `quality`. */
  function NetworkBadge(indicator: QualityIndicator): (r: NetworkInfo)
    ensures QualityOfLabel(r.text) == Some(indicator.quality)
    ensures r.icon == WifiOff <==> indicator.quality == Lost
    ensures r.color == "text-green-500" <==> indicator.quality == Excellent || indicator.quality == Good
  {
    NetworkQualityOf(QualityValue(indicator.quality))
  }

  /** `remoteParticipants.length + 1`: the local participant is always counted. */
  function TotalParticipants<P>(remoteParticipants: seq<P>): (n: nat)
    ensures n >= 1 && n - 1 == |remoteParticipants|
  {
    |remoteParticipants| + 1
  }

  /** The recording flag after a run of recording-status events: the latest one, `false` before any. */
  function LatestRecordingStatus(events: seq<bool>): bool
  {
    if events == [] then false else events[|events| - 1]
  }

  /** The component's state: `duration` and `isRecording`. */
  class MetricsState {
    var duration: nat
    var isRecording: bool
    /** The recording-status events received so far. */
    ghost var recordingEvents: seq<bool>

    ghost predicate Valid()
      reads this
    {
      isRecording == LatestRecordingStatus(recordingEvents)
    }

    /** `useState(0)` and `useState(false)`. */
    constructor ()
      ensures Valid()
      ensures duration == 0 && !isRecording && recordingEvents == []
    {
      duration := 0;
      isRecording := false;
      recordingEvents := [];
    }

    /** The one-second interval: `setDuration(prev => prev + 1)`. */
    method Tick()
      requires Valid()
      modifies this
      ensures Valid()
      ensures duration == old(duration) + 1
      ensures isRecording == old(isRecording) && recordingEvents == old(recordingEvents)
    {
      duration := duration + 1;
    }

    /** The `RecordingStatusChanged` handler: `setIsRecording(recording)`. */
    method OnRecordingStatusChanged(recording: bool)
      requires Valid()
      modifies this
      ensures Valid()
      ensures recordingEvents == old(recordingEvents) + [recording]
      ensures isRecording == recording
      ensures duration == old(duration)
    {
      isRecording := recording;
      recordingEvents := recordingEvents + [recording];
    }

    /** The elapsed-time text the overlay renders. */
    function DurationText(): (s: string)
      reads this
      ensures ParseDuration(s).Some? && TotalSeconds(ParseDuration(s).value) == duration
    {
      FormatDurationRoundTrip(duration);
      FormatDuration(duration)
    }
  }
}
