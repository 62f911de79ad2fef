/**
 * The instruction texts of the built-in moods (cmd/root.go, `getDefaultMoods`),
 * one constant per sentence so that facts about their characters stay cheap.
 */
module MoodTexts {
  import opened Templates

  const ProfessionalLead: string :=
    "Additionally, "
    + "adjust the tone "
    + "of the text to "
    + "be highly "
    + "professional, "
    + "formal, and "
    + "objective. "

  const ProfessionalDetail: string :=
    "Avoid "
    + "colloquialisms "
    + "and ensure a "
    + "polished, "
    + "business-like "
    + "feel."

  const ProfessionalInstruction: string := ProfessionalLead + ProfessionalDetail

  const CasualLead: string :=
    "Additionally, "
    + "adjust the tone "
    + "of the text to "
    + "be more casual, "
    + "friendly, and "
    + "conversational. "

  const CasualDetail: string :=
    "Use simpler "
    + "language and a "
    + "more relaxed "
    + "style where "
    + "appropriate."

  const CasualInstruction: string := CasualLead + CasualDetail

  const FunnyLead: string :=
    "Additionally, "
    + "try to inject "
    + "appropriate and "
    + "subtle humor or "
    + "a lighthearted "
    + "tone into the "
    + "text. "

  const FunnyDetail: string :=
    "Make it "
    + "engaging and "
    + "amusing without "
    + "undermining the "
    + "core message, "
    + "if applicable."

  const FunnyInstruction: string := FunnyLead + FunnyDetail

  const PersuasiveLead: string :=
    "Additionally, "
    + "refine the text "
    + "to be more "
    + "persuasive and "
    + "impactful. "

  const PersuasiveDetail: string :=
    "Strengthen "
    + "arguments, use "
    + "confident "
    + "language, and "
    + "aim to convince "
    + "the reader."

  const PersuasiveInstruction: string := PersuasiveLead + PersuasiveDetail

  const EmpatheticLead: string :=
    "Additionally, "
    + "adjust the tone "
    + "to be "
    + "empathetic and "
    + "supportive. "

  const EmpatheticDetail: string :=
    "Use language "
    + "that conveys "
    + "understanding "
    + "and compassion, "
    + "suitable for "
    + "sensitive "
    + "topics."

  const EmpatheticInstruction: string := EmpatheticLead + EmpatheticDetail

  const ConciseLead: string :=
    "Additionally, "
    + "ensure the text "
    + "is extremely "
    + "concise and "
    + "to-the-point. "

  const ConciseDetail: string :=
    "Remove any "
    + "redundant words "
    + "or phrases and "
    + "focus on "
    + "conveying the "
    + "core message "
    + "with maximum "
    + "brevity."

  const ConciseInstruction: string := ConciseLead + ConciseDetail

  lemma ProfessionalLeadBraceFree() ensures BraceFree(ProfessionalLead) { }
  lemma ProfessionalDetailBraceFree() ensures BraceFree(ProfessionalDetail) { }

  lemma ProfessionalInstructionBraceFree()
    ensures BraceFree(ProfessionalInstruction)
  {
    ProfessionalLeadBraceFree();
    ProfessionalDetailBraceFree();
  }

  lemma CasualLeadBraceFree() ensures BraceFree(CasualLead) { }
  lemma CasualDetailBraceFree() ensures BraceFree(CasualDetail) { }

  lemma CasualInstructionBraceFree()
    ensures BraceFree(CasualInstruction)
  {
    CasualLeadBraceFree();
    CasualDetailBraceFree();
  }

  lemma FunnyLeadBraceFree() ensures BraceFree(FunnyLead) { }
  lemma FunnyDetailBraceFree() ensures BraceFree(FunnyDetail) { }

  lemma FunnyInstructionBraceFree()
    ensures BraceFree(FunnyInstruction)
  {
    FunnyLeadBraceFree();
    FunnyDetailBraceFree();
  }

  lemma PersuasiveLeadBraceFree() ensures BraceFree(PersuasiveLead) { }
  lemma PersuasiveDetailBraceFree() ensures BraceFree(PersuasiveDetail) { }

  lemma PersuasiveInstructionBraceFree()
    ensures BraceFree(PersuasiveInstruction)
  {
    PersuasiveLeadBraceFree();
    PersuasiveDetailBraceFree();
  }

  lemma EmpatheticLeadBraceFree() ensures BraceFree(EmpatheticLead) { }
  lemma EmpatheticDetailBraceFree() ensures BraceFree(EmpatheticDetail) { }

  lemma EmpatheticInstructionBraceFree()
    ensures BraceFree(EmpatheticInstruction)
  {
    EmpatheticLeadBraceFree();
    EmpatheticDetailBraceFree();
  }

  lemma ConciseLeadBraceFree() ensures BraceFree(ConciseLead) { }
  lemma ConciseDetailBraceFree() ensures BraceFree(ConciseDetail) { }

  lemma ConciseInstructionBraceFree()
    ensures BraceFree(ConciseInstruction)
  {
    ConciseLeadBraceFree();
    ConciseDetailBraceFree();
  }
}
