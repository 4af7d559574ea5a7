/** Instruction text of the elderly-companion agent: fixed sections around
    an optional block of pre-fetched information about the elder. */
module Companion {
  import opened Wrappers
  import opened Strings

  /** Role and language rules. */
  const Base: string :=
    "You are a warm, caring AI companion for elderly Korean users.\n\n"
    + "# CRITICAL RULE: Language\n"
    + "- User speaks: Korean (한국어)\n"
    + "- You MUST respond: ONLY in Korean (한국어) using respectful 존댓말\n"
    + "- NEVER respond in English - ALWAYS Korean\n"
    + "- Example correct: '안녕하세요, 어르신'\n"
    + "- Example WRONG: 'Hello' or any English\n\n"

  /** How to use the memory-search tool. */
  const MemoryInstruction: string :=
    "# Memory Usage\n"
    + "- When the user mentions family, health, past events, or personal topics, "
    + "use the search_memory tool to recall previous conversations\n"
    + "- Use retrieved memories naturally without explicitly saying '기억을 검색했습니다'\n"
    + "- If no relevant memory found, continue conversation naturally\n\n"

  /** Heading of the optional block about the elder. */
  const ContextHeader: string := "# 어르신 정보 (참고용)\n"
  const ContextTrailer: string := "\n\n"

  /** Output style, conversational flow, interruptions and topics. */
  const OutputRules: string :=
    "# Output rules\n"
    + "- Use respectful Korean speech (존댓말) at all times\n"
    + "- Keep responses brief: one to two sentences\n"
    + "- Respond naturally to what they say\n"
    + "- Be warm and caring in tone\n\n"
    + "# Conversational flow\n"
    + "- Listen more than you speak\n"
    + "- Respond to their stories with empathy\n"
    + "- Share relevant observations about wellbeing, meals, activities\n"
    + "- Only ask questions when it naturally fits\n\n"
    + "# Handling interruptions\n"
    + "- If interrupted, stop and listen\n"
    + "- Acknowledge gracefully: '네, 말씀하세요'\n\n"
    + "# Topics\n"
    + "- Daily activities and meals\n"
    + "- Health and feelings\n"
    + "- Family and memories\n"
    + "- Weather and seasons"

  /** The block about the elder: nothing when no context was fetched. */
  function ContextSection(wardContext: string): (section: string)
    ensures wardContext == "" <==> section == ""
    ensures wardContext != "" ==> StartsWith(section, ContextHeader) && EndsWith(section, ContextTrailer)
  {
    if wardContext != "" then ContextHeader + wardContext + ContextTrailer else ""
  }

  /** Instructions from a fixed head, an optional block and a fixed tail. */
  function Assemble(head: string, block: string, tail: string): (s: string)
    ensures StartsWith(s, head) && EndsWith(s, tail)
    ensures |s| == |head| + |block| + |tail|
    ensures s[|head|..|s| - |tail|] == block
  {
    var s := head + block + tail;
    assert s[..|head|] == head;
    assert s[|s| - |tail|..] == tail;
    assert s[|head|..|s| - |tail|] == block;
    s
  }

  /** `_build_instructions`: base rules, memory usage, the optional block
      about the elder, then the output rules. */
  function BuildInstructions(wardContext: string := ""): (instructions: string)
    ensures StartsWith(instructions, Base + MemoryInstruction)
    ensures EndsWith(instructions, OutputRules)
    ensures wardContext == "" ==> instructions == Base + MemoryInstruction + OutputRules
    ensures wardContext != "" ==>
              instructions == Base + MemoryInstruction + (ContextHeader + wardContext + ContextTrailer) + OutputRules
  {
    Assemble(Base + MemoryInstruction, ContextSection(wardContext), OutputRules)
  }

  /** Reads the elder context back out of an instruction text, if the text
      has the shape `BuildInstructions` produces. */
  function RecoverWardContext(instructions: string): Option<string>
  {
    var head := Base + MemoryInstruction;
    if |head| + |OutputRules| <= |instructions|
       && StartsWith(instructions, head) && EndsWith(instructions, OutputRules) then
      var middle := instructions[|head|..|instructions| - |OutputRules|];
      if middle == "" then Some("")
      else if |ContextHeader| + |ContextTrailer| < |middle|
              && StartsWith(middle, ContextHeader) && EndsWith(middle, ContextTrailer) then
        Some(middle[|ContextHeader|..|middle| - |ContextTrailer|])
      else None
    else None
  }

  /** The elder context can always be read back from the instructions, so
      different contexts always give different instructions. */
  lemma RecoverBuildInstructions(wardContext: string)
    ensures RecoverWardContext(BuildInstructions(wardContext)) == Some(wardContext)
  {
    var head := Base + MemoryInstruction;
    var section := ContextSection(wardContext);
    var instructions := Assemble(head, section, OutputRules);
    assert instructions[|head|..|instructions| - |OutputRules|] == section;
    if wardContext != "" {
      var framed := Assemble(ContextHeader, wardContext, ContextTrailer);
      assert framed == section;
    }
  }
}
