/**
 * Reconciliation of the leads exported from Zoho CRM against the leads in
 * the CRM's own table: status normalization, the three-tier matcher (phone,
 * then email, then fuzzy name) and the report that pairs every Zoho lead
 * with at most one CRM lead.
 */
module Reconcile {
  import opened Wrappers
  import opened Text
  import opened LeadTypes
  import opened PhoneNormalize

  /** Zoho's Hebrew status labels and their spelling variants, mapped to status names. */
  const StatusMap: map<string, string> := map[
    "חתם על הסכם התקשרות" := "signed",
    "נקבעה שיחה" := "meeting_set",
    "אין מענה" := "no_answer",
    "לא רלוונטי" := "not_relevant",
    "נשלחה הודעה" := "message_sent",
    "טרם יצרנו קשר" := "not_contacted",
    "סגר במקום אחר" := "closed_elsewhere",
    "מעוניין בעתיד" := "future_interest",
    "בהמתנה להסכם" := "pending_agreement",
    "נוצר קשר" := "contacted",
    "חדש" := "not_contacted",
    "לקוח" := "signed",
    "אבוד" := "not_relevant",
    "לפני תיקשרות" := "not_contacted",
    "לפני_תיקשרות" := "not_contacted",
    "רלוונטי לשנה הבאה" := "future_interest",
    "רלוונטי_לשנה_הבאה" := "future_interest",
    "נשלח הסכם התקשרות" := "pending_agreement",
    "נשלח_הסכם_התקשרות" := "pending_agreement",
    "סגר עם גורם אחר" := "closed_elsewhere",
    "סגר_עם_גורם_אחר" := "closed_elsewhere"
  ]

  /**
   * `normalize_zoho_status`: an empty raw status reads as `new`; a known
   * label (after stripping) maps through the table; anything else is the
   * stripped text, lower-cased, with each space turned into an underscore.
   */
  function NormalizeZohoStatus(raw: string): (r: string)
    ensures raw == "" ==> r == "new"
    ensures raw != "" && Trim(raw) in StatusMap ==> r == StatusMap[Trim(raw)]
    ensures raw != "" && Trim(raw) !in StatusMap ==>
      |r| == |Trim(raw)| &&
      forall i :: 0 <= i < |r| ==> r[i] == (if Trim(raw)[i] == ' ' then '_' else LowerChar(Trim(raw)[i]))
    ensures raw != "" && Trim(raw) !in StatusMap ==> ' ' !in r && forall i :: 0 <= i < |r| ==> !IsUpperAscii(r[i])
  {
    if raw == "" then "new"
    else
      var key := Trim(raw);
      if key in StatusMap then StatusMap[key]
      else
        var lowered := Lower(key);
        var r := ReplaceChar(lowered, ' ', "_");
        ReplaceCharByChar(lowered, ' ', '_');
        r
  }

  /** Every label the table knows maps to one of the fourteen canonical statuses. */
  lemma StatusMapTargetsCanonical()
    ensures forall k :: k in StatusMap ==> ParseStatus(StatusMap[k]).Some?
  {
  }

  /**
   * The Hebrew label the CRM shows for a pre-signing or lost status is a
   * Zoho label that maps back to that status.  The four post-signing
   * statuses have no Zoho counterpart.
   */
  lemma ZohoLabelsRoundTrip(s: LeadStatus)
    requires s !in {UnderReview, ReportSubmitted, MissingDocument, Completed}
    ensures NormalizeZohoStatus(Config(s).displayLabel) == StatusName(s)
  {
    match s
    case NotContacted | NoAnswer => FollowUpLabels(s);
    case Contacted | MessageSent => WarmLabels(s);
    case MeetingSet | PendingAgreement => HotLabels(s);
    case Signed => KnownLabel("חתם על הסכם התקשרות", "signed");
    case NotRelevant | ClosedElsewhere => LostLabels(s);
    case FutureInterest => KnownLabel("מעוניין בעתיד", "future_interest");
  }

  lemma FollowUpLabels(s: LeadStatus)
    requires s == NotContacted || s == NoAnswer
    ensures NormalizeZohoStatus(Config(s).displayLabel) == StatusName(s)
  {
    if s == NotContacted {
      KnownLabel("טרם יצרנו קשר", "not_contacted");
    } else {
      KnownLabel("אין מענה", "no_answer");
    }
  }

  lemma WarmLabels(s: LeadStatus)
    requires s == Contacted || s == MessageSent
    ensures NormalizeZohoStatus(Config(s).displayLabel) == StatusName(s)
  {
    if s == Contacted {
      KnownLabel("נוצר קשר", "contacted");
    } else {
      KnownLabel("נשלחה הודעה", "message_sent");
    }
  }

  lemma HotLabels(s: LeadStatus)
    requires s == MeetingSet || s == PendingAgreement
    ensures NormalizeZohoStatus(Config(s).displayLabel) == StatusName(s)
  {
    if s == MeetingSet {
      KnownLabel("נקבעה שיחה", "meeting_set");
    } else {
      KnownLabel("בהמתנה להסכם", "pending_agreement");
    }
  }

  lemma LostLabels(s: LeadStatus)
    requires s == NotRelevant || s == ClosedElsewhere
    ensures NormalizeZohoStatus(Config(s).displayLabel) == StatusName(s)
  {
    if s == NotRelevant {
      KnownLabel("לא רלוונטי", "not_relevant");
    } else {
      KnownLabel("סגר במקום אחר", "closed_elsewhere");
    }
  }

  lemma KnownLabel(text: string, name: string)
    requires text in StatusMap && StatusMap[text] == name
    requires text != [] && !IsSpace(text[0]) && !IsSpace(text[|text| - 1])
    ensures NormalizeZohoStatus(text) == name
  {
    TrimOfTrimmed(text);
  }

  datatype ZohoLead = ZohoLead(
    id: string, name: string, email: Option<string>, phone: Option<string>,
    status: string, statusRaw: string, createdAt: string, description: Option<string>)

  datatype SupabaseLead = SupabaseLead(
    id: string, name: string, email: Option<string>, phone: Option<string>,
    status: string, createdAt: string)

  datatype MatchType = ByPhone | ByEmail | ByName | Unmatched

  function MatchTypeName(t: MatchType): string {
    match t
    case ByPhone => "phone"
    case ByEmail => "email"
    case ByName => "name"
    case Unmatched => "none"
  }

  datatype MatchResult = MatchResult(
    zohoId: string, zohoName: string, zohoStatus: string,
    zohoPhone: Option<string>, zohoEmail: Option<string>, zohoNotes: Option<string>,
    supabaseId: Option<string>, supabaseName: Option<string>, supabaseStatus: Option<string>,
    matchType: MatchType, matchConfidence: real, statusDiffers: bool)

  /** The `{id, name, phone, email, status}` rows listed as unmatched. */
  datatype LeadSummary = LeadSummary(id: string, name: string, phone: Option<string>, email: Option<string>, status: string)

  datatype ReconciliationReport = ReconciliationReport(
    generatedAt: string,
    zohoLeadCount: int, supabaseLeadCount: int, matchedCount: int,
    unmatchedZohoCount: int, unmatchedSupabaseCount: int, statusDiffCount: int,
    matches: seq<MatchResult>, unmatchedZoho: seq<LeadSummary>, unmatchedSupabase: seq<LeadSummary>)

  /** The similarity threshold of the fuzzy name match. */
  const NameThreshold: real := 0.85

  /** A name lower-cased with its whitespace runs collapsed to single spaces. */
  function NameKey(name: string): string {
    Join(Words(Lower(name)), " ")
  }

  /**
   * `fuzzy_name_match`: both names present, compared case- and
   * spacing-insensitively by the similarity `ratio` (Python's
   * `SequenceMatcher`), which must reach the threshold.
   */
  function FuzzyNameMatch(name1: string, name2: string, ratio: (string, string) -> real): (r: (bool, real))
    ensures name1 == "" || name2 == "" ==> r == (false, 0.0)
    ensures name1 != "" && name2 != "" ==> r.1 == ratio(NameKey(name1), NameKey(name2))
    ensures r.0 <==> name1 != "" && name2 != "" && r.1 >= NameThreshold
  {
    if name1 == "" || name2 == "" then (false, 0.0)
    else
      var score := ratio(NameKey(name1), NameKey(name2));
      (score >= NameThreshold, score)
  }

  /** Email comparison key: lower-cased and stripped. */
  function EmailKey(email: string): string {
    Trim(Lower(email))
  }

  predicate PhoneHit(z: ZohoLead, sb: SupabaseLead, claimed: set<string>) {
    sb.id !in claimed && NormalizePhone(z.phone).Some? && NormalizePhone(sb.phone) == NormalizePhone(z.phone)
  }

  predicate EmailHit(z: ZohoLead, sb: SupabaseLead, claimed: set<string>) {
    && sb.id !in claimed
    && z.email.Some? && z.email.value != ""
    && sb.email.Some? && sb.email.value != ""
    && EmailKey(sb.email.value) == EmailKey(z.email.value)
  }

  predicate NameHit(z: ZohoLead, sb: SupabaseLead, claimed: set<string>, ratio: (string, string) -> real) {
    sb.id !in claimed && FuzzyNameMatch(z.name, sb.name, ratio).0
  }

  function NameScore(z: ZohoLead, sb: SupabaseLead, ratio: (string, string) -> real): real {
    FuzzyNameMatch(z.name, sb.name, ratio).1
  }

  /** The three tiers' tests and the name tier's score, as functions of a candidate. */
  function PhoneTier(z: ZohoLead, claimed: set<string>): SupabaseLead -> bool {
    sb => PhoneHit(z, sb, claimed)
  }

  function EmailTier(z: ZohoLead, claimed: set<string>): SupabaseLead -> bool {
    sb => EmailHit(z, sb, claimed)
  }

  function NameTier(z: ZohoLead, claimed: set<string>, ratio: (string, string) -> real): SupabaseLead -> bool {
    sb => NameHit(z, sb, claimed, ratio)
  }

  function NameScoreOf(z: ZohoLead, ratio: (string, string) -> real): SupabaseLead -> real {
    sb => NameScore(z, sb, ratio)
  }

  /** The first position whose element is a hit. */
  function FirstHit<T>(xs: seq<T>, hit: T -> bool): (r: Option<nat>)
    ensures r.Some? ==> r.value < |xs|
  {
    if xs == [] then None
    else if hit(xs[0]) then Some(0)
    else
      var r := FirstHit(xs[1..], hit);
      if r.None? then None else Some(r.value + 1)
  }

  /** `FirstHit` finds a hit with no hit before it, and finds nothing only when nothing is a hit. */
  lemma {:induction false} FirstHitSpec<T>(xs: seq<T>, hit: T -> bool)
    ensures var r := FirstHit(xs, hit);
      && (r.Some? ==> hit(xs[r.value]) && forall k :: 0 <= k < r.value ==> !hit(xs[k]))
      && (r.None? <==> forall k :: 0 <= k < |xs| ==> !hit(xs[k]))
  {
    if xs != [] && !hit(xs[0]) {
      FirstHitSpec(xs[1..], hit);
      assert forall k :: 1 <= k < |xs| ==> xs[k] == xs[1..][k - 1];
    }
  }

  /** The first hit is at `i` when `i` is a hit and nothing before it is. */
  lemma FirstHitIs<T>(xs: seq<T>, hit: T -> bool, i: nat)
    requires i < |xs| && hit(xs[i])
    requires forall k :: 0 <= k < i ==> !hit(xs[k])
    ensures FirstHit(xs, hit) == Some(i)
  {
    FirstHitSpec(xs, hit);
  }

  /**
   * The hit with the highest score; among equal scores the earliest, since
   * a later hit replaces the best only with a strictly greater score.
   */
  function BestHit<T>(xs: seq<T>, hit: T -> bool, score: T -> real): (r: Option<nat>)
    ensures r.Some? ==> r.value < |xs|
    decreases |xs|
  {
    if xs == [] then None
    else
      var n := |xs| - 1;
      var b := BestHit(xs[..n], hit, score);
      if hit(xs[n]) && (b.None? || score(xs[n]) > score(xs[b.value])) then Some(n) else b
  }

  /**
   * `BestHit` finds a hit whose score no hit exceeds and every earlier hit
   * falls short of, and finds nothing only when nothing is a hit.
   */
  lemma {:induction false} BestHitSpec<T>(xs: seq<T>, hit: T -> bool, score: T -> real)
    ensures var r := BestHit(xs, hit, score);
      && (r.Some? ==> hit(xs[r.value]))
      && (r.Some? ==> forall k :: 0 <= k < |xs| && hit(xs[k]) ==> score(xs[k]) <= score(xs[r.value]))
      && (r.Some? ==> forall k :: 0 <= k < r.value && hit(xs[k]) ==> score(xs[k]) < score(xs[r.value]))
      && (r.None? <==> forall k :: 0 <= k < |xs| ==> !hit(xs[k]))
    decreases |xs|
  {
    if xs != [] {
      var n := |xs| - 1;
      BestHitSpec(xs[..n], hit, score);
      assert forall k :: 0 <= k < n ==> xs[..n][k] == xs[k];
    }
  }

  /** Extending the candidates by one: the newcomer wins only with a strictly greater score. */
  lemma BestHitStep<T>(xs: seq<T>, x: T, hit: T -> bool, score: T -> real)
    ensures var b := BestHit(xs, hit, score);
      BestHit(xs + [x], hit, score) == if hit(x) && (b.None? || score(x) > score(xs[b.value])) then Some(|xs|) else b
  {
    assert (xs + [x])[..|xs|] == xs;
  }

  /** The result of `find_supabase_match`: the lead found (if any), how, and with what confidence. */
  datatype Found = Found(lead: Option<SupabaseLead>, matchType: MatchType, confidence: real)

  /**
   * The match the three tiers select: the first unclaimed lead with the same
   * normalized phone, else the first with the same email, else the best
   * fuzzy name match scaled by 0.7, else nothing.
   */
  function MatchOf(z: ZohoLead, sbs: seq<SupabaseLead>, claimed: set<string>, ratio: (string, string) -> real): Found {
    match FirstHit(sbs, PhoneTier(z, claimed))
    case Some(j) => Found(Some(sbs[j]), ByPhone, 1.0)
    case None =>
      match FirstHit(sbs, EmailTier(z, claimed))
      case Some(j) => Found(Some(sbs[j]), ByEmail, 0.9)
      case None =>
        match BestHit(sbs, NameTier(z, claimed, ratio), NameScoreOf(z, ratio))
        case Some(j) => Found(Some(sbs[j]), ByName, NameScore(z, sbs[j], ratio) * 0.7)
        case None => Found(None, Unmatched, 0.0)
  }

  /**
   * What the matcher guarantees: a found lead is one of the candidates and
   * was not already claimed; a tier is used only when every higher tier
   * found nothing; the confidence is 1.0, 0.9, or at least 0.85 * 0.7.
   */
  lemma MatchOfProperties(z: ZohoLead, sbs: seq<SupabaseLead>, claimed: set<string>, ratio: (string, string) -> real)
    ensures var f := MatchOf(z, sbs, claimed, ratio);
      && (f.lead.Some? <==> f.matchType != Unmatched)
      && (f.lead.Some? ==> f.lead.value in sbs && f.lead.value.id !in claimed)
      && (f.matchType == ByPhone <==> exists k :: 0 <= k < |sbs| && PhoneHit(z, sbs[k], claimed))
      && (f.matchType == ByPhone ==> f.confidence == 1.0 && PhoneHit(z, f.lead.value, claimed))
      && (f.matchType == ByEmail <==>
            (forall k :: 0 <= k < |sbs| ==> !PhoneHit(z, sbs[k], claimed))
            && exists k :: 0 <= k < |sbs| && EmailHit(z, sbs[k], claimed))
      && (f.matchType == ByEmail ==> f.confidence == 0.9 && EmailHit(z, f.lead.value, claimed))
      && (f.matchType == ByName ==> f.confidence >= NameThreshold * 0.7 && NameHit(z, f.lead.value, claimed, ratio))
      && (f.matchType == Unmatched ==> f.confidence == 0.0 && forall k :: 0 <= k < |sbs| ==>
            !PhoneHit(z, sbs[k], claimed) && !EmailHit(z, sbs[k], claimed) && !NameHit(z, sbs[k], claimed, ratio))
  {
    var phone := FirstHit(sbs, PhoneTier(z, claimed));
    var email := FirstHit(sbs, EmailTier(z, claimed));
    var name := BestHit(sbs, NameTier(z, claimed, ratio), NameScoreOf(z, ratio));
    FirstHitSpec(sbs, PhoneTier(z, claimed));
    FirstHitSpec(sbs, EmailTier(z, claimed));
    BestHitSpec(sbs, NameTier(z, claimed, ratio), NameScoreOf(z, ratio));
    if phone.Some? {
      assert sbs[phone.value] in sbs;
    } else if email.Some? {
      assert sbs[email.value] in sbs;
    } else if name.Some? {
      assert sbs[name.value] in sbs;
    }
  }

  /** A lead is found exactly when some tier matched. */
  lemma MatchOfFoundIffMatched(z: ZohoLead, sbs: seq<SupabaseLead>, claimed: set<string>, ratio: (string, string) -> real)
    ensures MatchOf(z, sbs, claimed, ratio).lead.Some? <==> MatchOf(z, sbs, claimed, ratio).matchType != Unmatched
  {
  }

  /** A found lead is one of the candidates and was not claimed before. */
  lemma MatchOfPicksUnclaimed(z: ZohoLead, sbs: seq<SupabaseLead>, claimed: set<string>, ratio: (string, string) -> real)
    ensures var f := MatchOf(z, sbs, claimed, ratio);
      f.lead.Some? ==> exists j :: 0 <= j < |sbs| && sbs[j] == f.lead.value && f.lead.value.id !in claimed
  {
    var f := MatchOf(z, sbs, claimed, ratio);
    var phone := FirstHit(sbs, PhoneTier(z, claimed));
    var email := FirstHit(sbs, EmailTier(z, claimed));
    var name := BestHit(sbs, NameTier(z, claimed, ratio), NameScoreOf(z, ratio));
    FirstHitSpec(sbs, PhoneTier(z, claimed));
    FirstHitSpec(sbs, EmailTier(z, claimed));
    BestHitSpec(sbs, NameTier(z, claimed, ratio), NameScoreOf(z, ratio));
    if phone.Some? {
      assert f.lead == Some(sbs[phone.value]);
    } else if email.Some? {
      assert f.lead == Some(sbs[email.value]);
    } else if name.Some? {
      assert f.lead == Some(sbs[name.value]);
    }
  }

  /** One pass of `find_supabase_match` that stops at the first hit. */
  method FindFirst<T>(xs: seq<T>, hit: T -> bool) returns (j: Option<nat>)
    ensures j == FirstHit(xs, hit)
  {
    var i := 0;
    while i < |xs|
      invariant 0 <= i <= |xs|
      invariant forall k :: 0 <= k < i ==> !hit(xs[k])
    {
      if hit(xs[i]) {
        FirstHitIs(xs, hit, i);
        return Some(i);
      }
      i := i + 1;
    }
    FirstHitSpec(xs, hit);
    return None;
  }

  /**
   * The name pass: keeps the best hit so far and replaces it only with a
   * strictly greater score.
   */
  method FindBest<T>(xs: seq<T>, hit: T -> bool, score: T -> real) returns (best: Option<nat>)
    ensures best == BestHit(xs, hit, score)
  {
    best := None;
    var bestScore := 0.0;
    var i := 0;
    while i < |xs|
      invariant 0 <= i <= |xs|
      invariant best == BestHit(xs[..i], hit, score)
      invariant best.Some? ==> best.value < i && bestScore == score(xs[best.value])
    {
      assert xs[..i + 1] == xs[..i] + [xs[i]];
      BestHitStep(xs[..i], xs[i], hit, score);
      if hit(xs[i]) {
        var s := score(xs[i]);
        if best.None? || s > bestScore {
          best := Some(i);
          bestScore := s;
        }
      }
      i := i + 1;
    }
    assert xs[..i] == xs;
  }

  /**
   * `find_supabase_match`: tries the tiers in order and returns the match
   * `MatchOf` describes, with confidence 1.0, 0.9 or 0.7 times the name score.
   */
  method FindSupabaseMatch(z: ZohoLead, sbs: seq<SupabaseLead>, claimed: set<string>, ratio: (string, string) -> real)
    returns (found: Found)
    ensures found == MatchOf(z, sbs, claimed, ratio)
  {
    var byPhone := FindFirst(sbs, PhoneTier(z, claimed));
    if byPhone.Some? {
      return Found(Some(sbs[byPhone.value]), ByPhone, 1.0);
    }
    var byEmail := FindFirst(sbs, EmailTier(z, claimed));
    if byEmail.Some? {
      return Found(Some(sbs[byEmail.value]), ByEmail, 0.9);
    }
    var byName := FindBest(sbs, NameTier(z, claimed, ratio), NameScoreOf(z, ratio));
    if byName.Some? {
      var sb := sbs[byName.value];
      return Found(Some(sb), ByName, NameScore(z, sb, ratio) * 0.7);
    }
    return Found(None, Unmatched, 0.0);
  }

  /** The match record for one Zoho lead and what the matcher found for it. */
  function ResultFor(z: ZohoLead, f: Found): (r: MatchResult)
    ensures r.supabaseId == if f.lead.Some? then Some(f.lead.value.id) else None
  {
    match f.lead
    case Some(sb) =>
      MatchResult(z.id, z.name, z.status, z.phone, z.email, z.description,
                  Some(sb.id), Some(sb.name), Some(sb.status), f.matchType, f.confidence, z.status != sb.status)
    case None =>
      MatchResult(z.id, z.name, z.status, z.phone, z.email, z.description,
                  None, None, None, Unmatched, 0.0, false)
  }

  /** The CRM ids claimed by a list of match records. */
  function ClaimedIds(ms: seq<MatchResult>): (ids: set<string>)
    ensures forall k :: 0 <= k < |ms| && ms[k].supabaseId.Some? ==> ms[k].supabaseId.value in ids
    ensures forall x :: x in ids ==> exists k :: 0 <= k < |ms| && ms[k].supabaseId == Some(x)
  {
    if ms == [] then {}
    else
      var n := |ms| - 1;
      assert forall k :: 0 <= k < n ==> ms[..n][k] == ms[k];
      ClaimedIds(ms[..n]) + (if ms[n].supabaseId.Some? then {ms[n].supabaseId.value} else {})
  }

  function CountClaiming(ms: seq<MatchResult>): nat {
    if ms == [] then 0 else CountClaiming(ms[..|ms| - 1]) + (if ms[|ms| - 1].supabaseId.Some? then 1 else 0)
  }

  function Ids(sbs: seq<SupabaseLead>): (ids: set<string>)
    ensures forall k :: 0 <= k < |sbs| ==> sbs[k].id in ids
    ensures forall x :: x in ids ==> exists k :: 0 <= k < |sbs| && sbs[k].id == x
  {
    if sbs == [] then {}
    else
      var rest := Ids(sbs[1..]);
      assert forall k :: 1 <= k < |sbs| ==> sbs[k] == sbs[1..][k - 1];
      {sbs[0].id} + rest
  }

  /**
   * The match records for the Zoho leads in order, each matched against the
   * CRM leads no earlier Zoho lead claimed; an unmatched record carries no
   * CRM data and no status difference.
   */
  function Reconciled(zoho: seq<ZohoLead>, sbs: seq<SupabaseLead>, ratio: (string, string) -> real): (ms: seq<MatchResult>)
    ensures |ms| == |zoho|
    ensures forall k :: 0 <= k < |ms| ==> ms[k].zohoId == zoho[k].id && ms[k].zohoStatus == zoho[k].status
    ensures forall k :: 0 <= k < |ms| ==> (ms[k].supabaseId.Some? <==> ms[k].matchType != Unmatched)
    ensures forall k :: 0 <= k < |ms| && ms[k].supabaseId.None? ==> !ms[k].statusDiffers
    decreases |zoho|
  {
    if zoho == [] then []
    else
      var n := |zoho| - 1;
      ReconcileStep(Reconciled(zoho[..n], sbs, ratio), zoho[n], sbs, ratio)
  }

  /** One Zoho lead matched against the CRM leads the earlier records left unclaimed. */
  function ReconcileStep(prev: seq<MatchResult>, z: ZohoLead, sbs: seq<SupabaseLead>, ratio: (string, string) -> real): (ms: seq<MatchResult>)
    ensures |ms| == |prev| + 1 && ms[..|prev|] == prev
    ensures ms[|prev|].zohoId == z.id && ms[|prev|].zohoStatus == z.status
    ensures ms[|prev|].supabaseId.Some? <==> ms[|prev|].matchType != Unmatched
    ensures ms[|prev|].supabaseId.None? ==> !ms[|prev|].statusDiffers
  {
    var f := MatchOf(z, sbs, ClaimedIds(prev), ratio);
    MatchOfFoundIffMatched(z, sbs, ClaimedIds(prev), ratio);
    prev + [ResultFor(z, f)]
  }

  /** The records for one more Zoho lead are the records so far plus one step. */
  lemma ReconciledSnoc(zoho: seq<ZohoLead>, i: nat, sbs: seq<SupabaseLead>, ratio: (string, string) -> real)
    requires i < |zoho|
    ensures var prev := Reconciled(zoho[..i], sbs, ratio);
      Reconciled(zoho[..i + 1], sbs, ratio) == prev + [ResultFor(zoho[i], MatchOf(zoho[i], sbs, ClaimedIds(prev), ratio))]
  {
    assert zoho[..i + 1][..i] == zoho[..i];
  }

  /** Adding a record adds the id it claims, if any. */
  lemma ClaimedIdsAppend(prev: seq<MatchResult>, r: MatchResult)
    ensures ClaimedIds(prev + [r]) == ClaimedIds(prev) + (if r.supabaseId.Some? then {r.supabaseId.value} else {})
  {
    assert (prev + [r])[..|prev|] == prev;
  }


  /** No two records claim the same CRM lead. */
  predicate ClaimsDistinct(ms: seq<MatchResult>) {
    forall k, l :: 0 <= k < l < |ms| && ms[k].supabaseId.Some? && ms[l].supabaseId.Some? ==> ms[k].supabaseId != ms[l].supabaseId
  }

  /** Appending a record that claims nothing or a fresh id keeps the claims distinct and counted. */
  lemma ClaimFresh(prev: seq<MatchResult>, r: MatchResult)
    requires ClaimsDistinct(prev) && CountClaiming(prev) == |ClaimedIds(prev)|
    requires r.supabaseId.Some? ==> r.supabaseId.value !in ClaimedIds(prev)
    ensures ClaimsDistinct(prev + [r])
    ensures ClaimedIds(prev + [r]) == ClaimedIds(prev) + (if r.supabaseId.Some? then {r.supabaseId.value} else {})
    ensures CountClaiming(prev + [r]) == |ClaimedIds(prev + [r])|
  {
    var ms := prev + [r];
    var n := |prev|;
    assert ms[..n] == prev;
    forall k, l | 0 <= k < l < |ms| && ms[k].supabaseId.Some? && ms[l].supabaseId.Some?
      ensures ms[k].supabaseId != ms[l].supabaseId
    {
      assert ms[k] == prev[k];
      if l == n {
        assert ms[k].supabaseId.value in ClaimedIds(prev);
      } else {
        assert ms[l] == prev[l];
      }
    }
    if r.supabaseId.Some? {
      assert |ClaimedIds(prev) + {r.supabaseId.value}| == |ClaimedIds(prev)| + 1;
    }
  }

  /**
   * No CRM lead is claimed twice, every claimed id is a CRM lead's, and so
   * the claiming records are exactly as many as the claimed ids.
   */
  lemma {:induction false} ReconciledClaimsDistinct(zoho: seq<ZohoLead>, sbs: seq<SupabaseLead>, ratio: (string, string) -> real)
    ensures var ms := Reconciled(zoho, sbs, ratio);
      && ClaimsDistinct(ms)
      && ClaimedIds(ms) <= Ids(sbs)
      && CountClaiming(ms) == |ClaimedIds(ms)|
    decreases |zoho|
  {
    if zoho != [] {
      var n := |zoho| - 1;
      var prev := Reconciled(zoho[..n], sbs, ratio);
      ReconciledClaimsDistinct(zoho[..n], sbs, ratio);
      var f := MatchOf(zoho[n], sbs, ClaimedIds(prev), ratio);
      MatchOfPicksUnclaimed(zoho[n], sbs, ClaimedIds(prev), ratio);
      var r := ResultFor(zoho[n], f);
      assert prev + [r] == Reconciled(zoho, sbs, ratio);
      ClaimFresh(prev, r);
      if f.lead.Some? {
        var j :| 0 <= j < |sbs| && sbs[j] == f.lead.value;
        assert f.lead.value.id in Ids(sbs);
      }
    }
  }

  /** The CRM leads no Zoho lead claimed, in their original order. */
  function UnmatchedSupabase(sbs: seq<SupabaseLead>, claimed: set<string>): (r: seq<LeadSummary>)
    ensures |r| == |sbs| - CountIdsIn(sbs, claimed)
  {
    if sbs == [] then []
    else
      var sb := sbs[0];
      (if sb.id !in claimed then [LeadSummary(sb.id, sb.name, sb.phone, sb.email, sb.status)] else [])
      + UnmatchedSupabase(sbs[1..], claimed)
  }

  function CountIdsIn(sbs: seq<SupabaseLead>, ids: set<string>): nat {
    if sbs == [] then 0 else (if sbs[0].id in ids then 1 else 0) + CountIdsIn(sbs[1..], ids)
  }

  /** The Zoho leads whose match record says no match, in Zoho order. */
  function UnmatchedZoho(ms: seq<MatchResult>): seq<LeadSummary> {
    if ms == [] then []
    else
      var n := |ms| - 1;
      var m := ms[n];
      assert forall k :: 0 <= k < n ==> ms[..n][k] == ms[k];
      UnmatchedZoho(ms[..n]) + (if m.matchType == Unmatched then [LeadSummary(m.zohoId, m.zohoName, m.zohoPhone, m.zohoEmail, m.zohoStatus)] else [])
  }

  /** Records whose CRM id is present and non-empty (the truthy ones). */
  function CountMatched(ms: seq<MatchResult>): nat {
    if ms == [] then 0
    else CountMatched(ms[..|ms| - 1]) + (if ms[|ms| - 1].supabaseId.Some? && ms[|ms| - 1].supabaseId.value != "" then 1 else 0)
  }

  function CountStatusDiffs(ms: seq<MatchResult>): nat {
    if ms == [] then 0 else CountStatusDiffs(ms[..|ms| - 1]) + (if ms[|ms| - 1].statusDiffers then 1 else 0)
  }

  predicate DistinctNonEmptyIds(sbs: seq<SupabaseLead>) {
    && (forall k :: 0 <= k < |sbs| ==> sbs[k].id != "")
    && (forall k, l :: 0 <= k < l < |sbs| ==> sbs[k].id != sbs[l].id)
  }

  /**
   * The matching loop of `generate_reconciliation_report`: each Zoho lead in
   * turn, against the CRM leads not yet claimed, recording the claimed ids.
   */
  method MatchAll(zoho: seq<ZohoLead>, sbs: seq<SupabaseLead>, ratio: (string, string) -> real)
    returns (matches: seq<MatchResult>, matchedIds: set<string>)
    ensures matches == Reconciled(zoho, sbs, ratio)
    ensures matchedIds == ClaimedIds(matches)
  {
    // The loop only relates each step to the specification by the lemmas it calls.
    hide *;
    matches := [];
    matchedIds := {};
    var i := 0;
    while i < |zoho|
      invariant 0 <= i <= |zoho|
      invariant matches == Reconciled(zoho[..i], sbs, ratio)
      invariant matchedIds == ClaimedIds(matches)
    {
      ReconciledSnoc(zoho, i, sbs, ratio);
      var z := zoho[i];
      var found := FindSupabaseMatch(z, sbs, matchedIds, ratio);
      if found.lead.Some? {
        matchedIds := matchedIds + {found.lead.value.id};
      }
      ClaimedIdsAppend(matches, ResultFor(z, found));
      matches := matches + [ResultFor(z, found)];
      i := i + 1;
    }
    assert zoho[..i] == zoho;
  }

  /**
   * `generate_reconciliation_report`: matches the Zoho leads in order,
   * claiming each CRM lead at most once, then lists what stayed unmatched on
   * both sides and counts matches and status differences.  When the CRM ids
   * are distinct and non-empty, every Zoho lead and every CRM lead is
   * counted exactly once, as matched or as unmatched.
   */
  method GenerateReconciliationReport(zoho: seq<ZohoLead>, sbs: seq<SupabaseLead>, ratio: (string, string) -> real, now: string)
    returns (report: ReconciliationReport)
    ensures report.matches == Reconciled(zoho, sbs, ratio)
    ensures report.unmatchedSupabase == UnmatchedSupabase(sbs, ClaimedIds(report.matches))
    ensures report.unmatchedZoho == UnmatchedZoho(report.matches)
    ensures report.generatedAt == now
    ensures report.zohoLeadCount == |zoho| && report.supabaseLeadCount == |sbs|
    ensures report.matchedCount == CountMatched(report.matches)
    ensures report.unmatchedZohoCount == |report.unmatchedZoho|
    ensures report.unmatchedSupabaseCount == |report.unmatchedSupabase|
    ensures report.statusDiffCount == CountStatusDiffs(report.matches)
    ensures DistinctNonEmptyIds(sbs) ==>
      && report.matchedCount + report.unmatchedZohoCount == report.zohoLeadCount
      && report.matchedCount + report.unmatchedSupabaseCount == report.supabaseLeadCount
  {
    var matches, matchedIds := MatchAll(zoho, sbs, ratio);
    var unmatchedSupabase := UnmatchedSupabase(sbs, matchedIds);
    var unmatchedZoho := UnmatchedZoho(matches);
    report := ReconciliationReport(
      now, |zoho|, |sbs|, CountMatched(matches), |unmatchedZoho|, |unmatchedSupabase|,
      CountStatusDiffs(matches), matches, unmatchedZoho, unmatchedSupabase);
    if DistinctNonEmptyIds(sbs) {
      ReportBalances(zoho, sbs, ratio);
    }
  }

  /**
   * With distinct, non-empty CRM ids, matched plus unmatched Zoho leads is
   * the number of Zoho leads, and matched plus unmatched CRM leads is the
   * number of CRM leads.
   */
  lemma ReportBalances(zoho: seq<ZohoLead>, sbs: seq<SupabaseLead>, ratio: (string, string) -> real)
    requires DistinctNonEmptyIds(sbs)
    ensures var ms := Reconciled(zoho, sbs, ratio);
      && CountMatched(ms) + |UnmatchedZoho(ms)| == |zoho|
      && CountMatched(ms) + |UnmatchedSupabase(sbs, ClaimedIds(ms))| == |sbs|
  {
    var ms := Reconciled(zoho, sbs, ratio);
    ReconciledClaimsDistinct(zoho, sbs, ratio);
    MatchedCountsClaims(ms, sbs);
    UnmatchedZohoCount(ms);
    CountIdsInSubset(sbs, ClaimedIds(ms));
  }

  /** With non-empty CRM ids, the truthy-id count is the count of records that claim a lead. */
  lemma {:induction false} MatchedCountsClaims(ms: seq<MatchResult>, sbs: seq<SupabaseLead>)
    requires DistinctNonEmptyIds(sbs)
    requires ClaimedIds(ms) <= Ids(sbs)
    ensures CountMatched(ms) == CountClaiming(ms)
    decreases |ms|
  {
    if ms != [] {
      var n := |ms| - 1;
      assert ClaimedIds(ms[..n]) <= ClaimedIds(ms) by {
        assert forall k :: 0 <= k < n ==> ms[..n][k] == ms[k];
      }
      MatchedCountsClaims(ms[..n], sbs);
      if ms[n].supabaseId.Some? {
        assert ms[n].supabaseId.value in Ids(sbs);
        var j :| 0 <= j < |sbs| && sbs[j].id == ms[n].supabaseId.value;
      }
    }
  }

  lemma {:induction false} UnmatchedZohoCount(ms: seq<MatchResult>)
    requires forall k :: 0 <= k < |ms| ==> (ms[k].supabaseId.Some? <==> ms[k].matchType != Unmatched)
    ensures |UnmatchedZoho(ms)| + CountClaiming(ms) == |ms|
    decreases |ms|
  {
    if ms != [] {
      var n := |ms| - 1;
      assert forall k :: 0 <= k < n ==> ms[..n][k] == ms[k];
      UnmatchedZohoCount(ms[..n]);
    }
  }

  /** With distinct ids, the leads whose id is in a set of their ids number exactly the set's size. */
  lemma {:induction false} CountIdsInSubset(sbs: seq<SupabaseLead>, ids: set<string>)
    requires DistinctNonEmptyIds(sbs)
    requires ids <= Ids(sbs)
    ensures CountIdsIn(sbs, ids) == |ids|
    decreases |sbs|
  {
    if sbs == [] {
      assert ids == {};
    } else {
      var rest := sbs[1..];
      var head := sbs[0].id;
      assert head !in Ids(rest) by {
        forall k | 0 <= k < |rest| ensures rest[k].id != head {
          assert rest[k] == sbs[k + 1];
        }
      }
      assert DistinctNonEmptyIds(rest) by {
        forall k | 0 <= k < |rest| ensures rest[k].id != "" {
          assert rest[k] == sbs[k + 1];
        }
        forall k, l | 0 <= k < l < |rest| ensures rest[k].id != rest[l].id {
          assert rest[k] == sbs[k + 1] && rest[l] == sbs[l + 1];
        }
      }
      var others := ids - {head};
      assert others <= Ids(rest);
      CountIdsInSubset(rest, others);
      CountIdsInIgnoresAbsent(rest, ids, head);
    }
  }

  /** Adding or removing an id no lead has does not change the count. */
  lemma {:induction false} CountIdsInIgnoresAbsent(sbs: seq<SupabaseLead>, ids: set<string>, absent: string)
    requires forall k :: 0 <= k < |sbs| ==> sbs[k].id != absent
    ensures CountIdsIn(sbs, ids) == CountIdsIn(sbs, ids - {absent})
    decreases |sbs|
  {
    if sbs != [] {
      CountIdsInIgnoresAbsent(sbs[1..], ids, absent);
    }
  }
}
