/**
 * The "Your Top Strengths" line of the skills panel: the names of the three
 * strongest skills, joined with ", ".  Without a skill vector the panel
 * renders nothing.
 */
module SkillsRadar {
  import opened Types
  import opened Strings
  import opened SkillRanking

  function Names(skills: seq<Skill>): (names: seq<string>)
    ensures |names| == |skills| && forall i :: 0 <= i < |skills| ==> names[i] == skills[i].name
  {
    if |skills| == 0 then [] else [skills[0].name] + Names(skills[1..])
  }

  const FixedNames: seq<string> := ["Technical", "Creative", "Analytical", "Leadership", "Communication", "Problem Solving"]

  /** The names of the three strongest of `skills`, joined with ", ". */
  function StrengthsLine(skills: seq<Skill>): (text: string)
    requires |skills| >= 3
    ensures var names := Names(Top(skills, 3));
            && |names| == 3
            && (forall i :: 0 <= i < 3 ==> exists j :: 0 <= j < |skills| && names[i] == skills[j].name)
            && text == names[0] + ", " + names[1] + ", " + names[2]
  {
    var top := Top(skills, 3);
    TopDrawnFromInput(skills, 3);
    var names := Names(top);
    assert forall i :: 0 <= i < 3 ==> top[i] in skills;
    assert Join(names, ", ") == names[0] + ", " + Join(names[1..], ", ");
    assert Join(names[1..], ", ") == names[1] + ", " + Join(names[2..], ", ");
    Join(names, ", ")
  }

  /** `skills.sort(...).slice(0, 3).map(s => s.name).join(', ')`, or nothing without a skill vector. */
  function TopStrengths(sv: Option<SkillVector>): (text: Option<string>)
    ensures text.None? <==> sv.None?
    ensures sv.Some? ==> text.value == StrengthsLine(SkillList(sv.value))
  {
    if sv.None? then None else Some(StrengthsLine(SkillList(sv.value)))
  }

  lemma StrengthsFromNames(skills: seq<Skill>, allowed: seq<string>)
    requires forall j :: 0 <= j < |skills| ==> skills[j].name in allowed
    ensures forall i :: 0 <= i < |Top(skills, 3)| ==> Top(skills, 3)[i].name in allowed
  {
    TopDrawnFromInput(skills, 3);
  }

  /** Every listed name is one of the six fixed skill names. */
  lemma StrengthsAreFixedSkills(v: SkillVector)
    ensures forall i :: 0 <= i < 3 ==> Names(Top(SkillList(v), 3))[i] in FixedNames
  {
    StrengthsFromNames(SkillList(v), FixedNames);
  }
}
