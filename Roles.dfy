/** Role lookup (utils/roles.py): find a role by trying candidate names in
    order. Discord's `utils.get(roles, name=n)` is "the first role whose
    name is n". The currency names `coin` and `Coin` come from the bot's
    configuration and are parameters here. */
module Roles {
  import opened Wrappers

  datatype Role = Role(name: string, id: int)

  /** `utils.get(roles, name=name)`: the first role with that name. */
  function FindByName(roles: seq<Role>, name: string): (r: Option<Role>)
    ensures r.None? <==> forall j :: 0 <= j < |roles| ==> roles[j].name != name
    ensures r.Some? ==> exists j :: 0 <= j < |roles| && roles[j] == r.value && r.value.name == name &&
                                    forall i :: 0 <= i < j ==> roles[i].name != name
  {
    if roles == [] then None
    else if roles[0].name == name then Some(roles[0])
    else
      var rest := FindByName(roles[1..], name);
      assert rest.Some? ==> exists j :: 0 <= j < |roles[1..]| && roles[1..][j] == rest.value &&
                                        forall i :: 0 <= i < j ==> roles[1..][i].name != name;
      rest
  }

  /** The loop of `get_role`: the role matching the earliest candidate name
      that matches any role. */
  function FirstMatch(roles: seq<Role>, names: seq<string>): (r: Option<Role>)
    ensures r.None? <==> forall i, j :: 0 <= i < |names| && 0 <= j < |roles| ==> roles[j].name != names[i]
    ensures r.Some? ==> exists i :: 0 <= i < |names| && FindByName(roles, names[i]) == r &&
                                    forall k :: 0 <= k < i ==> FindByName(roles, names[k]).None?
  {
    if names == [] then None
    else
      var found := FindByName(roles, names[0]);
      if found.Some? then found
      else
        var rest := FirstMatch(roles, names[1..]);
        assert forall i :: 0 < i < |names| ==> names[i] == names[1..][i - 1];
        rest
  }

  /** `get_role` accepts one name or a list of names. */
  datatype RoleNames = OneName(name: string) | Names(names: seq<string>)

  function NameList(n: RoleNames): seq<string>
  {
    match n
    case OneName(name) => [name]
    case Names(names) => names
  }

  /** What `get_role` returns: `None` without a guild; otherwise the guild
      role that matches the earliest candidate name, or `None`. */
  function RoleLookup(guildRoles: Option<seq<Role>>, names: RoleNames): (r: Option<Role>)
    ensures guildRoles.None? ==> r.None?
    ensures r.Some? ==> r.value in guildRoles.value && r.value.name in NameList(names)
    ensures guildRoles.Some? && r.None? ==>
      forall i, j :: 0 <= i < |NameList(names)| && 0 <= j < |guildRoles.value| ==>
        guildRoles.value[j].name != NameList(names)[i]
  {
    if guildRoles.None? then None
    else
      FirstMatchFound(guildRoles.value, NameList(names), FirstMatch(guildRoles.value, NameList(names)));
      FirstMatch(guildRoles.value, NameList(names))
  }

  /** `get_role`: tries the names in order and stops at the first hit. */
  method GetRole(guildRoles: Option<seq<Role>>, names: RoleNames) returns (requested: Option<Role>)
    ensures requested == RoleLookup(guildRoles, names)
    ensures requested.Some? ==> requested.value in guildRoles.value && requested.value.name in NameList(names)
  {
    if guildRoles.None? {
      return None;
    }
    var roles := guildRoles.value;
    var list := NameList(names);
    requested := None;
    var k := 0;
    while k < |list|
      invariant 0 <= k <= |list|
      invariant forall i :: 0 <= i < k ==> FindByName(roles, list[i]).None?
      invariant FirstMatch(roles, list) == FirstMatch(roles, list[k..])
      invariant requested.None?
    {
      requested := FindByName(roles, list[k]);
      if requested.Some? {
        break;
      }
      assert list[k..][1..] == list[k + 1..];
      k := k + 1;
    }
    FirstMatchFound(roles, list, requested);
  }

  /** The result of `FirstMatch` is a role of the list bearing a candidate name. */
  lemma FirstMatchFound(roles: seq<Role>, names: seq<string>, r: Option<Role>)
    requires r == FirstMatch(roles, names)
    ensures r.Some? ==> r.value in roles && r.value.name in names
  {
  }

  /** A single name is searched exactly like a one-element list. */
  lemma OneNameIsOneElementList(guildRoles: Option<seq<Role>>, name: string)
    ensures RoleLookup(guildRoles, OneName(name)) == RoleLookup(guildRoles, Names([name]))
    ensures guildRoles.Some? ==> RoleLookup(guildRoles, OneName(name)) == FindByName(guildRoles.value, name)
  {
  }

  // ---------------------------------------------------------------------
  // The candidate lists as written: adjacent string literals without a
  // comma between them are one literal in Python.

  /** The currency-named security officer titles. */
  function CoinSecurityNames(coin: string, Coin: string): seq<string>
  {
    [Coin + " Security Officer", Coin + " security officer",
     coin + " security officer", coin + "_security_officer",
     Coin + " Casino Security Officer", Coin + " Casino security officer",
     coin + " Casino security officer", coin + "_casino_security_officer"]
  }

  /** The fixed part of the cybersecurity list, with
      "information_security_officer" and "Computer Security Officer" merged. */
  function SecurityNames(): seq<string>
  {
    ["Information Security Officer", "Information security officer",
     "information security officer", "information_security_officerComputer Security Officer",
     "Computer security officer", "computer security officer", "computer_security_officer",
     "Cybersecurity Officer", "Cybersecurity officer", "cybersecurity officer", "cybersecurity_officer"]
  }

  /** `get_cybersecurity_officer_role`. */
  method GetCybersecurityOfficerRole(guildRoles: Option<seq<Role>>, coin: string, Coin: string)
    returns (officer: Option<Role>)
    ensures officer == RoleLookup(guildRoles, Names(CoinSecurityNames(coin, Coin) + SecurityNames()))
  {
    officer := GetRole(guildRoles, Names(CoinSecurityNames(coin, Coin) + SecurityNames()));
  }

  /** The list `get_aml_officer_role` searches, with "AML officer" and
      "aml_officer" merged. */
  function AmlOfficerNames(): seq<string>
  {
    ["Anti-Money Laundering Officer", "Anti-money laundering officer",
     "anti-money laundering officer", "anti_money_laundering_officer",
     "AML Officer", "AML officeraml_officer"]
  }

  /** The list `test_invoker_is_aml_officer` searches: the same, without
      "anti-money laundering officer". */
  function InvokerAmlNames(): seq<string>
  {
    ["Anti-Money Laundering Officer", "Anti-money laundering officer",
     "anti_money_laundering_officer",
     "AML Officer", "AML officeraml_officer"]
  }

  /** `get_aml_officer_role`. */
  method GetAmlOfficerRole(guildRoles: Option<seq<Role>>) returns (officer: Option<Role>)
    ensures officer == RoleLookup(guildRoles, Names(AmlOfficerNames()))
  {
    officer := GetRole(guildRoles, Names(AmlOfficerNames()));
  }

  /** Whether a member's roles include one named in `names`, tried in order. */
  predicate HoldsNamedRole(memberRoles: seq<Role>, names: seq<string>)
  {
    FirstMatch(memberRoles, names).Some?
  }

  /** `test_invoker_is_aml_officer`, over the invoker's own roles: the loop
      over the candidate names, stopping at the first the invoker holds. */
  method TestInvokerIsAmlOfficer(invokerRoles: seq<Role>) returns (isOfficer: bool)
    ensures isOfficer == HoldsNamedRole(invokerRoles, InvokerAmlNames())
  {
    var names := InvokerAmlNames();
    var amlOfficerRole: Option<Role> := None;
    var k := 0;
    while k < |names|
      invariant 0 <= k <= |names|
      invariant FirstMatch(invokerRoles, names) == FirstMatch(invokerRoles, names[k..])
      invariant amlOfficerRole.None?
    {
      amlOfficerRole := FindByName(invokerRoles, names[k]);
      if amlOfficerRole.Some? {
        break;
      }
      assert names[k..][1..] == names[k + 1..];
      k := k + 1;
    }
    isOfficer := amlOfficerRole.Some?;
  }

  /** The invoker check holds exactly when one of the invoker's roles bears
      one of its candidate names. */
  lemma InvokerCheckIff(invokerRoles: seq<Role>)
    ensures HoldsNamedRole(invokerRoles, InvokerAmlNames()) <==>
      exists i, j :: 0 <= i < |InvokerAmlNames()| && 0 <= j < |invokerRoles| &&
                     invokerRoles[j].name == InvokerAmlNames()[i]
  {
  }

  /** The merged literals: the searched lists hold the merged names and not
      the separate ones, so a role named "AML officer", "aml_officer",
      "information_security_officer" or "Computer Security Officer" is
      never found by its own name. */
  lemma MergedNames()
    ensures "AML officeraml_officer" in AmlOfficerNames() && "AML officeraml_officer" in InvokerAmlNames()
    ensures "AML officer" !in AmlOfficerNames() && "aml_officer" !in AmlOfficerNames()
    ensures "AML officer" !in InvokerAmlNames() && "aml_officer" !in InvokerAmlNames()
    ensures "information_security_officerComputer Security Officer" in SecurityNames()
    ensures "information_security_officer" !in SecurityNames() && "Computer Security Officer" !in SecurityNames()
    ensures |AmlOfficerNames()| == 6 && |SecurityNames()| == 11
  {
  }

  /** A guild whose only officer role is "anti-money laundering officer":
      `get_aml_officer_role` finds it, yet the member who holds it fails
      `test_invoker_is_aml_officer`. */
  lemma AmlChecksDisagree(id: int)
    ensures var roles := [Role("anti-money laundering officer", id)];
      RoleLookup(Some(roles), Names(AmlOfficerNames())) == Some(roles[0]) &&
      !HoldsNamedRole(roles, InvokerAmlNames())
  {
    var roles := [Role("anti-money laundering officer", id)];
    GuildFindsLowerCaseTitle(roles);
    InvokerMissesLowerCaseTitle(roles);
  }

  lemma GuildFindsLowerCaseTitle(roles: seq<Role>)
    requires |roles| == 1 && roles[0].name == "anti-money laundering officer"
    ensures FirstMatch(roles, AmlOfficerNames()) == Some(roles[0])
  {
    var names := AmlOfficerNames();
    assert names[0][0] == 'A' && names[1][0] == 'A';
    assert FindByName(roles, names[0]).None? && FindByName(roles, names[1]).None?;
    assert FindByName(roles, names[2]) == Some(roles[0]);
  }

  lemma InvokerMissesLowerCaseTitle(roles: seq<Role>)
    requires |roles| == 1 && roles[0].name == "anti-money laundering officer"
    ensures FirstMatch(roles, InvokerAmlNames()).None?
  {
    var name := roles[0].name;
    assert name[0] == 'a' && name[4] == '-';
    assert FindByName(roles, "Anti-Money Laundering Officer").None?;
    assert FindByName(roles, "Anti-money laundering officer").None?;
    assert FindByName(roles, "anti_money_laundering_officer").None?;
    assert FindByName(roles, "AML Officer").None?;
    assert FindByName(roles, "AML officeraml_officer").None?;
  }

  // ---------------------------------------------------------------------
  // The lists as evidently intended: every literal its own name, and one
  // list shared by both AML checks.

  function AmlOfficerNamesCorrected(): seq<string>
  {
    ["Anti-Money Laundering Officer", "Anti-money laundering officer",
     "anti-money laundering officer", "anti_money_laundering_officer",
     "AML Officer", "AML officer", "aml_officer"]
  }

  function SecurityNamesCorrected(): seq<string>
  {
    ["Information Security Officer", "Information security officer",
     "information security officer", "information_security_officer",
     "Computer Security Officer", "Computer security officer",
     "computer security officer", "computer_security_officer",
     "Cybersecurity Officer", "Cybersecurity officer", "cybersecurity officer", "cybersecurity_officer"]
  }

  /** With one shared list the two AML checks agree: a member who holds the
      role `get_aml_officer_role` finds passes the invoker check. */
  lemma AmlChecksAgreeCorrected(guildRoles: seq<Role>, invokerRoles: seq<Role>)
    ensures var found := RoleLookup(Some(guildRoles), Names(AmlOfficerNamesCorrected()));
      found.Some? && found.value in invokerRoles ==> HoldsNamedRole(invokerRoles, AmlOfficerNamesCorrected())
  {
    var names := AmlOfficerNamesCorrected();
    var found := RoleLookup(Some(guildRoles), Names(names));
    if found.Some? && found.value in invokerRoles {
      var i :| 0 <= i < |names| && FindByName(guildRoles, names[i]) == found;
      var j :| 0 <= j < |invokerRoles| && invokerRoles[j] == found.value;
      assert invokerRoles[j].name == names[i];
    }
  }

  /** A guild whose officer role is named "AML officer": the list as
      written misses it, the corrected list finds it. */
  lemma AmlOfficerNameFound(id: int)
    ensures var roles := [Role("AML officer", id)];
      RoleLookup(Some(roles), Names(AmlOfficerNames())).None? &&
      RoleLookup(Some(roles), Names(AmlOfficerNamesCorrected())) == Some(roles[0])
  {
    var roles := [Role("AML officer", id)];
    assert forall i :: 0 <= i < |AmlOfficerNames()| ==> roles[0].name != AmlOfficerNames()[i];
    assert FindByName(roles, AmlOfficerNamesCorrected()[5]) == Some(roles[0]);
  }

  /** The corrected lists hold every separate name. */
  lemma CorrectedNamesPresent()
    ensures "AML officer" in AmlOfficerNamesCorrected() && "aml_officer" in AmlOfficerNamesCorrected()
    ensures "information_security_officer" in SecurityNamesCorrected()
    ensures "Computer Security Officer" in SecurityNamesCorrected()
  {
  }
}
