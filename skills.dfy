/** Skill inheritance: a skill's system prompt is its parent's prompt, its own prompt
    and the area context, in that order; its table categories are its own, or else its
    parent's, or else all of them. */
module Skills {
  import opened Wrappers
  import opened Text

  /** The two fields of a skill that the inheritance rules read. */
  datatype Skill = Skill(systemPrompt: string, statsCategories: seq<string>)

  const Separator := "\n\n---\n\n"

  /** The last segment of every prompt. */
  function AreaSegment(areaContext: string): string {
    "\n## エリアコンテキスト\n" + areaContext
  }

  /** The parent's prompt is used when there is a parent and its prompt is not empty. */
  predicate ParentPromptShown(parent: Option<Skill>) {
    parent.Some? && parent.value.systemPrompt != ""
  }

  /** The segments the prompt is joined from. */
  function PromptParts(skill: Skill, parent: Option<Skill>, areaContext: string): (r: seq<string>)
    ensures |r| == if ParentPromptShown(parent) then 3 else 2
    ensures r[|r| - 2] == skill.systemPrompt && r[|r| - 1] == AreaSegment(areaContext)
    ensures ParentPromptShown(parent) ==> r[0] == parent.value.systemPrompt
  {
    (if ParentPromptShown(parent) then [parent.value.systemPrompt] else [])
      + [skill.systemPrompt, AreaSegment(areaContext)]
  }

  /** `buildSkillSystemPrompt`: pushes the parent's prompt (when shown), the skill's
      prompt and the area segment onto a list, then joins it with the separator. */
  method BuildSkillSystemPrompt(skill: Skill, parent: Option<Skill>, areaContext: string) returns (prompt: string)
    ensures prompt == Join(PromptParts(skill, parent, areaContext), Separator)
    ensures ParentPromptShown(parent) ==>
              prompt == parent.value.systemPrompt + Separator + skill.systemPrompt + Separator + AreaSegment(areaContext)
    ensures !ParentPromptShown(parent) ==>
              prompt == skill.systemPrompt + Separator + AreaSegment(areaContext)
  {
    var parts: seq<string> := [];
    if parent.Some? && parent.value.systemPrompt != "" {
      parts := parts + [parent.value.systemPrompt];
    }
    parts := parts + [skill.systemPrompt];
    parts := parts + [AreaSegment(areaContext)];
    if ParentPromptShown(parent) {
      assert parts == [parent.value.systemPrompt, skill.systemPrompt, AreaSegment(areaContext)];
      JoinThree(parent.value.systemPrompt, skill.systemPrompt, AreaSegment(areaContext), Separator);
    } else {
      assert parts == [skill.systemPrompt, AreaSegment(areaContext)];
      JoinTwo(skill.systemPrompt, AreaSegment(areaContext), Separator);
    }
    prompt := Join(parts, Separator);
  }

  /** Where the segments sit in the joined prompt: a shown parent prompt opens it, the
      skill's own prompt follows strictly after it, and the area segment closes it. */
  lemma {:induction false} PromptLayout(skill: Skill, parent: Option<Skill>, areaContext: string)
    ensures var prompt := Join(PromptParts(skill, parent, areaContext), Separator);
            var at := if ParentPromptShown(parent) then |parent.value.systemPrompt| + |Separator| else 0;
            IsSuffix(AreaSegment(areaContext), prompt)
            && at + |skill.systemPrompt| <= |prompt|
            && prompt[at..at + |skill.systemPrompt|] == skill.systemPrompt
            && (ParentPromptShown(parent) ==> IsPrefix(parent.value.systemPrompt, prompt) && at > 0)
  {
    var s, a := skill.systemPrompt, AreaSegment(areaContext);
    if ParentPromptShown(parent) {
      var p := parent.value.systemPrompt;
      JoinThree(p, s, a, Separator);
      var prompt := p + Separator + s + Separator + a;
      assert PromptParts(skill, parent, areaContext) == [p, s, a];
      assert prompt[|p| + |Separator|..|p| + |Separator| + |s|] == s;
      assert prompt[..|p|] == p;
    } else {
      JoinTwo(s, a, Separator);
      var prompt := s + Separator + a;
      assert PromptParts(skill, parent, areaContext) == [s, a];
      assert prompt[..|s|] == s;
    }
  }

  /** A parent whose prompt is empty contributes nothing: the prompt is the one of the
      skill without a parent. */
  lemma EmptyParentPromptSkipped(skill: Skill, parent: Skill, areaContext: string)
    requires parent.systemPrompt == ""
    ensures PromptParts(skill, Some(parent), areaContext) == PromptParts(skill, None, areaContext)
  {
  }

  /** `resolveSkillCategories`: the skill's own list when not empty, else the parent's
      when there is one and it is not empty, else `None` (all categories). */
  function ResolveSkillCategories(skill: Skill, parent: Option<Skill>): (r: Option<seq<string>>)
    ensures |skill.statsCategories| > 0 ==> r == Some(skill.statsCategories)
    ensures |skill.statsCategories| == 0 && parent.Some? && |parent.value.statsCategories| > 0
            ==> r == Some(parent.value.statsCategories)
    ensures r.None? <==> |skill.statsCategories| == 0 && (parent.None? || |parent.value.statsCategories| == 0)
    ensures r.Some? ==> r.value == skill.statsCategories || (parent.Some? && r.value == parent.value.statsCategories)
    ensures r.Some? ==> |r.value| > 0
  {
    if |skill.statsCategories| > 0 then Some(skill.statsCategories)
    else if parent.Some? && |parent.value.statsCategories| > 0 then Some(parent.value.statsCategories)
    else None
  }

  /** A skill with its own categories ignores its parent entirely. */
  lemma OwnCategoriesIgnoreParent(skill: Skill, p1: Option<Skill>, p2: Option<Skill>)
    requires |skill.statsCategories| > 0
    ensures ResolveSkillCategories(skill, p1) == ResolveSkillCategories(skill, p2)
  {
  }
}
