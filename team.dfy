/** The role shown under each card of the "About Us" tab. */
module Team {

  /** The roles in the order the cards list them. */
  const AiEngineer := "AI Engineer"
  const FrontendDeveloper := "Frontend Developer"
  const Reporter := "Reporter"

  /** The role title of team member `member` (numbered from 1). */
  function RoleTitle(member: int): (r: string)
    ensures r == AiEngineer <==> member <= 3
    ensures r == FrontendDeveloper <==> member == 4
    ensures r == Reporter <==> member > 4
  {
    if member <= 3 then AiEngineer
    else if member == 4 then FrontendDeveloper
    else Reporter
  }

  /** The titles of the cards rendered for `members`, in order. */
  function Roles(members: seq<int>): (r: seq<string>)
    ensures |r| == |members|
    ensures forall i :: 0 <= i < |members| ==> r[i] == RoleTitle(members[i])
  {
    seq(|members|, i requires 0 <= i < |members| => RoleTitle(members[i]))
  }

  /** The five cards read: three engineers, a frontend developer, a reporter. */
  lemma FiveMemberTeam()
    ensures Roles([1, 2, 3, 4, 5])
         == [AiEngineer, AiEngineer, AiEngineer, FrontendDeveloper, Reporter]
  {
  }
}
