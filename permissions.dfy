/** `checkAdminPermission`: the gate in front of every command and button. */
module Permissions {
  import opened Common

  const AdminOnlyReply := "This command is only available to server administrators."

  /** The gate's decision; a refusal is answered with an ephemeral reply. */
  datatype Gate = Allowed | Denied(reply: string)

  /**
   * Interactions outside a guild always pass.  In a guild the member must
   * hold the Administrator permission; a missing member
   * (`interaction.member?.permissions` is undefined) is refused too.
   * `memberPermissions` is `None` when there is no member.
   */
  function CheckAdminPermission(inGuild: bool, memberPermissions: Option<set<string>>): (g: Gate)
    ensures !inGuild ==> g == Allowed
    ensures inGuild ==> (g == Allowed <==> memberPermissions.Some? && "Administrator" in memberPermissions.value)
    ensures g.Denied? ==> inGuild && g.reply == AdminOnlyReply
  {
    if !inGuild then Allowed
    else match memberPermissions
      case Some(permissions) => if "Administrator" in permissions then Allowed else Denied(AdminOnlyReply)
      case None => Denied(AdminOnlyReply)
  }
}
