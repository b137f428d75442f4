/** The records the SkillSwap client receives from its server and keeps in
    component state. Dates are integers (milliseconds); only the fields the
    client logic reads are kept. */
module Domain {

  /** An offered skill, or a skill listing: offered skills carry an
      experience level (Beginner, Intermediate, Advanced or Expert). */
  datatype Skill = Skill(category: string, title: string, description: string, experienceLevel: string)

  /** A skill a user is looking for. */
  datatype RequiredSkill = RequiredSkill(category: string, title: string, description: string)

  datatype User = User(
    id: string,
    name: string,
    bio: string,
    offeredSkills: seq<Skill>,
    requiredSkills: seq<RequiredSkill>)

  /** A chat message; `senderId` and `recipientId` are `sender._id` and
      `recipient._id` of the populated message document. */
  datatype Message = Message(id: string, senderId: string, recipientId: string, content: string, createdAt: int)
}
