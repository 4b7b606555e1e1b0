/** The sentiment display helpers (src/utils/sentimentUtils.js): badge classes and Spanish labels
    for the five sentiment labels and the three risk levels the analysis service returns. */
module SentimentUtils {
  import opened Wrappers
  import opened Strings
  import Js

  /** `SENTIMENT_LABELS` */
  datatype Sentiment = Anxiety | Suicidal | Anger | Sadness | Frustration

  function SentimentCode(s: Sentiment): string {
    match s
    case Anxiety => "ANXIETY"
    case Suicidal => "SUICIDAL"
    case Anger => "ANGER"
    case Sadness => "SADNESS"
    case Frustration => "FRUSTRATION"
  }

  /** The label an object key names, if any. */
  function SentimentOf(key: string): (r: Option<Sentiment>)
    ensures r.Some? ==> SentimentCode(r.value) == key
    ensures r.None? ==> forall s :: SentimentCode(s) != key
  {
    if key == "ANXIETY" then Some(Anxiety)
    else if key == "SUICIDAL" then Some(Suicidal)
    else if key == "ANGER" then Some(Anger)
    else if key == "SADNESS" then Some(Sadness)
    else if key == "FRUSTRATION" then Some(Frustration)
    else None
  }

  /** `RISK_LEVELS` */
  datatype RiskLevel = Low | Medium | High

  function RiskCode(l: RiskLevel): string {
    match l
    case Low => "LOW"
    case Medium => "MEDIUM"
    case High => "HIGH"
  }

  function RiskOf(key: string): (r: Option<RiskLevel>)
    ensures r.Some? ==> RiskCode(r.value) == key
    ensures r.None? ==> forall l :: RiskCode(l) != key
  {
    if key == "LOW" then Some(Low)
    else if key == "MEDIUM" then Some(Medium)
    else if key == "HIGH" then Some(High)
    else None
  }

  /** The entries of the badge-class table. */
  function SentimentBadge(s: Sentiment): string {
    match s
    case Anxiety => "badge-anxiety"
    case Suicidal => "badge-suicidal"
    case Anger => "badge-anger"
    case Sadness => "badge-sadness"
    case Frustration => "badge-frustration"
  }

  /** Each badge class is "badge-" and the label in lower case. */
  lemma SentimentBadgeIsLowerCode(s: Sentiment)
    ensures SentimentBadge(s) == "badge-" + Lower(SentimentCode(s))
  {
    var code := SentimentCode(s);
    assert Lower(code) == seq(|code|, i requires 0 <= i < |code| => LowerChar(code[i]));
  }

  /** `getSentimentBadgeClass(sentiment)`: the object is indexed by the value's text, and a
      value that is no label gets the plain 'badge'. */
  function SentimentBadgeClass(sentiment: Js.Value): (r: string)
    ensures SentimentOf(Js.ToStr(sentiment)).Some? ==> r == SentimentBadge(SentimentOf(Js.ToStr(sentiment)).value)
    ensures SentimentOf(Js.ToStr(sentiment)).None? ==> r == "badge"
  {
    match SentimentOf(Js.ToStr(sentiment))
    case Some(s) => SentimentBadge(s)
    case None => "badge"
  }

  /** No two labels share a badge, and none gets the plain one. */
  lemma SentimentBadgesDistinct(s: Sentiment, t: Sentiment)
    ensures SentimentBadge(s) == SentimentBadge(t) ==> s == t
    ensures SentimentBadge(s) != "badge"
  {
  }

  /** The badge tells every label apart, and from anything else. */
  lemma SentimentBadgeClassesDistinct(a: Js.Value, b: Js.Value)
    ensures SentimentBadgeClass(a) == "badge" <==> SentimentOf(Js.ToStr(a)).None?
    ensures SentimentBadgeClass(a) == SentimentBadgeClass(b) <==> SentimentOf(Js.ToStr(a)) == SentimentOf(Js.ToStr(b))
  {
    var sa, sb := SentimentOf(Js.ToStr(a)), SentimentOf(Js.ToStr(b));
    if sa.Some? {
      SentimentBadgesDistinct(sa.value, if sb.Some? then sb.value else sa.value);
    }
    if sb.Some? {
      SentimentBadgesDistinct(sb.value, sb.value);
    }
  }

  function RiskBadge(l: RiskLevel): string {
    match l
    case High => "badge-high-risk"
    case Medium => "badge-medium-risk"
    case Low => "badge-low-risk"
  }

  /** Each risk badge class is "badge-", the level in lower case, and "-risk". */
  lemma RiskBadgeIsLowerCode(l: RiskLevel)
    ensures RiskBadge(l) == "badge-" + Lower(RiskCode(l)) + "-risk"
  {
    var code := RiskCode(l);
    assert Lower(code) == seq(|code|, i requires 0 <= i < |code| => LowerChar(code[i]));
  }

  /** `getRiskBadgeClass(riskLevel)`: 'badge' for anything but the three levels. */
  function RiskBadgeClass(riskLevel: Js.Value): (r: string)
    ensures RiskOf(Js.ToStr(riskLevel)).Some? ==> r == RiskBadge(RiskOf(Js.ToStr(riskLevel)).value)
    ensures RiskOf(Js.ToStr(riskLevel)).None? ==> r == "badge"
  {
    match RiskOf(Js.ToStr(riskLevel))
    case Some(l) => RiskBadge(l)
    case None => "badge"
  }

  lemma RiskBadgesDistinct(l: RiskLevel, m: RiskLevel)
    ensures RiskBadge(l) == RiskBadge(m) ==> l == m
    ensures RiskBadge(l) != "badge"
  {
  }

  lemma RiskBadgeClassesDistinct(a: Js.Value, b: Js.Value)
    ensures RiskBadgeClass(a) == "badge" <==> RiskOf(Js.ToStr(a)).None?
    ensures RiskBadgeClass(a) == RiskBadgeClass(b) <==> RiskOf(Js.ToStr(a)) == RiskOf(Js.ToStr(b))
  {
    var la, lb := RiskOf(Js.ToStr(a)), RiskOf(Js.ToStr(b));
    if la.Some? {
      RiskBadgesDistinct(la.value, if lb.Some? then lb.value else la.value);
    }
    if lb.Some? {
      RiskBadgesDistinct(lb.value, lb.value);
    }
  }

  /** The entries of the label table. */
  function SentimentName(s: Sentiment): string {
    match s
    case Anxiety => "Ansiedad"
    case Suicidal => "Pensamientos Suicidas"
    case Anger => "Enojo"
    case Sadness => "Tristeza"
    case Frustration => "Frustración"
  }

  /** `getSentimentLabel(sentiment)`: the Spanish name of a label; any other value comes back
      as it was passed, not as its text. */
  function SentimentLabel(sentiment: Js.Value): (r: Js.Value)
    ensures SentimentOf(Js.ToStr(sentiment)).Some? ==> r == Js.Str(SentimentName(SentimentOf(Js.ToStr(sentiment)).value))
    ensures SentimentOf(Js.ToStr(sentiment)).None? ==> r == sentiment
  {
    match SentimentOf(Js.ToStr(sentiment))
    case Some(s) => Js.Str(SentimentName(s))
    case None => sentiment
  }

  /** Different labels get different names, and no name is itself a label. */
  lemma SentimentNamesDistinct(s: Sentiment, t: Sentiment)
    ensures SentimentName(s) == SentimentName(t) ==> s == t
    ensures SentimentOf(SentimentName(s)) == None
  {
  }

  /** A label is always translated (the result differs from what was passed), different labels
      get different names, and translating twice changes nothing. */
  lemma SentimentLabelTranslates(a: Js.Value, b: Js.Value)
    ensures SentimentLabel(a) == a <==> SentimentOf(Js.ToStr(a)).None?
    ensures SentimentOf(Js.ToStr(a)).Some? && SentimentOf(Js.ToStr(b)).Some? ==>
              (SentimentLabel(a) == SentimentLabel(b) <==> SentimentOf(Js.ToStr(a)) == SentimentOf(Js.ToStr(b)))
    ensures SentimentLabel(SentimentLabel(a)) == SentimentLabel(a)
  {
    var sa, sb := SentimentOf(Js.ToStr(a)), SentimentOf(Js.ToStr(b));
    if sa.Some? {
      SentimentNamesDistinct(sa.value, if sb.Some? then sb.value else sa.value);
      assert Js.ToStr(SentimentLabel(a)) == SentimentName(sa.value);
    }
  }

  function RiskName(l: RiskLevel): string {
    match l
    case High => "Alto Riesgo"
    case Medium => "Riesgo Medio"
    case Low => "Riesgo Bajo"
  }

  /** `getRiskLabel(riskLevel)`: the Spanish name of a level; any other value unchanged. */
  function RiskLabel(riskLevel: Js.Value): (r: Js.Value)
    ensures RiskOf(Js.ToStr(riskLevel)).Some? ==> r == Js.Str(RiskName(RiskOf(Js.ToStr(riskLevel)).value))
    ensures RiskOf(Js.ToStr(riskLevel)).None? ==> r == riskLevel
  {
    match RiskOf(Js.ToStr(riskLevel))
    case Some(l) => Js.Str(RiskName(l))
    case None => riskLevel
  }

  lemma RiskNamesDistinct(l: RiskLevel, m: RiskLevel)
    ensures RiskName(l) == RiskName(m) ==> l == m
    ensures RiskOf(RiskName(l)) == None
  {
  }

  lemma RiskLabelTranslates(a: Js.Value, b: Js.Value)
    ensures RiskLabel(a) == a <==> RiskOf(Js.ToStr(a)).None?
    ensures RiskOf(Js.ToStr(a)).Some? && RiskOf(Js.ToStr(b)).Some? ==>
              (RiskLabel(a) == RiskLabel(b) <==> RiskOf(Js.ToStr(a)) == RiskOf(Js.ToStr(b)))
    ensures RiskLabel(RiskLabel(a)) == RiskLabel(a)
  {
    var la, lb := RiskOf(Js.ToStr(a)), RiskOf(Js.ToStr(b));
    if la.Some? {
      RiskNamesDistinct(la.value, if lb.Some? then lb.value else la.value);
      assert Js.ToStr(RiskLabel(a)) == RiskName(la.value);
    }
  }
}
