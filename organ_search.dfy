/**
 * `OrganSearchService`: the ABO/Rh compatibility table and the availability score of
 * one organ record for a recipient.
 */
module OrganSearch {
  import opened Wrappers
  import Geolocation

  /** An organ-availability record: the donor blood type (may be missing) and the
      organ's condition. */
  datatype OrganAvailability = OrganAvailability(bloodType: Option<string>, condition: string)

  /** The eight ABO/Rh blood types, the keys of the compatibility table. */
  const BloodTypes: set<string> := {"O-", "O+", "A-", "A+", "B-", "B+", "AB-", "AB+"}

  /** Recipient blood type to the donor blood types it accepts. */
  const CompatiblePairs: map<string, seq<string>> := map[
    "O-" := ["O-"],
    "O+" := ["O-", "O+"],
    "A-" := ["O-", "A-"],
    "A+" := ["O-", "O+", "A-", "A+"],
    "B-" := ["O-", "B-"],
    "B+" := ["O-", "O+", "B-", "B+"],
    "AB-" := ["O-", "A-", "B-", "AB-"],
    "AB+" := ["O-", "O+", "A-", "A+", "B-", "B+", "AB-", "AB+"]
  ]

  /** `_is_blood_type_compatible`: the donor is listed for the recipient; a recipient
      outside the table accepts no donor. */
  function IsBloodTypeCompatible(recipient: string, donor: string): (ok: bool)
    ensures ok ==> recipient in BloodTypes && donor in BloodTypes
  {
    donor in (if recipient in CompatiblePairs then CompatiblePairs[recipient] else [])
  }

  /** The antigens a blood type carries, read off its name. */
  datatype Antigen = AntigenA | AntigenB | RhD

  function Antigens(t: string): set<Antigen>
  {
    (if 'A' in t then {AntigenA} else {}) + (if 'B' in t then {AntigenB} else {}) + (if '+' in t then {RhD} else {})
  }

  /** The table is the standard transfusion rule: a donor is acceptable exactly when it
      carries no antigen the recipient lacks. */
  lemma CompatibleIffAntigensIncluded(recipient: string, donor: string)
    ensures IsBloodTypeCompatible(recipient, donor)
        <==> recipient in BloodTypes && donor in BloodTypes && Antigens(donor) <= Antigens(recipient)
  {
    if recipient in BloodTypes && donor in BloodTypes {
      assert Antigens("O-") == {};
      assert Antigens("O+") == {RhD};
      assert Antigens("A-") == {AntigenA};
      assert Antigens("A+") == {AntigenA, RhD};
      assert Antigens("B-") == {AntigenB};
      assert Antigens("B+") == {AntigenB, RhD};
      assert Antigens("AB-") == {AntigenA, AntigenB};
      assert Antigens("AB+") == {AntigenA, AntigenB, RhD};
    }
  }

  /** "O-" accepts only "O-"; "AB+" accepts all eight types. */
  lemma ExtremeRecipients(donor: string)
    ensures IsBloodTypeCompatible("O-", donor) <==> donor == "O-"
    ensures IsBloodTypeCompatible("AB+", donor) <==> donor in BloodTypes
  {
  }

  /** Every listed type accepts itself, and every listed recipient accepts "O-". */
  lemma SelfAndUniversalDonor(t: string)
    requires t in BloodTypes
    ensures IsBloodTypeCompatible(t, t)
    ensures IsBloodTypeCompatible(t, "O-")
  {
  }

  /** Python truthiness of an optional string: present and non-empty. */
  predicate Truthy(s: Option<string>)
  {
    s.Some? && s.value != ""
  }

  function BloodTypeBonus(organ: OrganAvailability, recipient: Option<string>): (bonus: real)
    ensures bonus == 0.0 || bonus == 0.2 || bonus == 0.3
  {
    if Truthy(recipient) && Truthy(organ.bloodType) then
      if recipient.value == organ.bloodType.value then 0.3
      else if IsBloodTypeCompatible(recipient.value, organ.bloodType.value) then 0.2
      else 0.0
    else 0.0
  }

  const ConditionScores: map<string, real> := map["excellent" := 0.2, "good" := 0.1, "fair" := 0.05]

  function ConditionBonus(condition: string): (bonus: real)
    ensures 0.0 <= bonus <= 0.2
  {
    if condition in ConditionScores then ConditionScores[condition] else 0.0
  }

  /** `get_organ_availability_score`: base 0.5 plus the blood-type and condition
      bonuses, capped at 1.0. */
  function GetOrganAvailabilityScore(organ: OrganAvailability, recipient: Option<string>): (score: real)
    ensures 0.5 <= score <= 1.0
  {
    var score := 0.5 + BloodTypeBonus(organ, recipient) + ConditionBonus(organ.condition);
    if score < 1.0 then score else 1.0
  }

  /** The blood-type bonus: 0.3 for an exact match, which takes precedence even though
      a listed type is also compatible with itself; 0.2 for a different but compatible
      type; nothing for an incompatible type, and nothing when either type is missing
      or empty. The exact-match bonus applies to any non-empty string, listed or not. */
  lemma BloodTypeBonusCases(organ: OrganAvailability, recipient: Option<string>)
    ensures !Truthy(recipient) || !Truthy(organ.bloodType) ==> BloodTypeBonus(organ, recipient) == 0.0
    ensures Truthy(recipient) && organ.bloodType == recipient ==>
              BloodTypeBonus(organ, recipient) == 0.3
              && (recipient.value in BloodTypes ==> IsBloodTypeCompatible(recipient.value, recipient.value))
    ensures Truthy(recipient) && Truthy(organ.bloodType) && organ.bloodType != recipient ==>
              BloodTypeBonus(organ, recipient)
              == if IsBloodTypeCompatible(recipient.value, organ.bloodType.value) then 0.2 else 0.0
    ensures BloodTypeBonus(organ, recipient) == 0.2 ==>
              recipient.value in BloodTypes && organ.bloodType.value in BloodTypes
  {
    if Truthy(recipient) && organ.bloodType == recipient && recipient.value in BloodTypes {
      SelfAndUniversalDonor(recipient.value);
    }
  }

  /** The condition bonus: excellent 0.2, good 0.1, fair 0.05, anything else 0. */
  lemma ConditionBonusCases(condition: string)
    ensures condition == "excellent" ==> ConditionBonus(condition) == 0.2
    ensures condition == "good" ==> ConditionBonus(condition) == 0.1
    ensures condition == "fair" ==> ConditionBonus(condition) == 0.05
    ensures condition !in {"excellent", "good", "fair"} ==> ConditionBonus(condition) == 0.0
  {
  }

  /** The cap at 1.0 never changes the score: the largest bonuses sum to exactly 0.5. */
  lemma ScoreNeverCapped(organ: OrganAvailability, recipient: Option<string>)
    ensures GetOrganAvailabilityScore(organ, recipient)
         == 0.5 + BloodTypeBonus(organ, recipient) + ConditionBonus(organ.condition)
  {
  }

  /** For organs in the same condition, an exact blood-type match scores at least as
      high as a compatible type, which scores higher than an incompatible one. */
  lemma ScoreOrdersByCompatibility(exact: OrganAvailability, compatible: OrganAvailability,
                                   incompatible: OrganAvailability, recipient: string)
    requires recipient != ""
    requires exact.bloodType == Some(recipient)
    requires compatible.bloodType.Some? && compatible.bloodType.value != ""
    requires IsBloodTypeCompatible(recipient, compatible.bloodType.value)
    requires incompatible.bloodType.Some? && !IsBloodTypeCompatible(recipient, incompatible.bloodType.value)
    requires exact.condition == compatible.condition == incompatible.condition
    ensures GetOrganAvailabilityScore(exact, Some(recipient)) >= GetOrganAvailabilityScore(compatible, Some(recipient))
    ensures GetOrganAvailabilityScore(compatible, Some(recipient)) > GetOrganAvailabilityScore(incompatible, Some(recipient))
  {
    SelfAndUniversalDonor(recipient);
    ScoreNeverCapped(exact, Some(recipient));
    ScoreNeverCapped(compatible, Some(recipient));
    ScoreNeverCapped(incompatible, Some(recipient));
  }

  /** `search_organs_nearby`: a placeholder that finds nothing. */
  function SearchOrgansNearby(userLat: real, userLon: real, organName: string, bloodType: Option<string>,
                              maxKm: real): seq<(Geolocation.Hospital, OrganAvailability)>
  {
    []
  }
}
