/** The fixed places of a cluster and the ledger keys that belong to them. */
module Places {

  datatype Place = Bastion | ControlPlane(slot: nat)

  /** Control-plane slots are single digits: a cluster has one or three of them. */
  function Suffix(place: Place): string
    requires place.ControlPlane? ==> place.slot < 10
  {
    match place
    case Bastion => "bastion"
    case ControlPlane(slot) => "control-plane-" + [('0' as int + slot) as char]
  }

  predicate Known(place: Place) {
    place.ControlPlane? ==> place.slot < 10
  }

  function VMKey(place: Place): string requires Known(place) { "vm/" + Suffix(place) }
  function AssignmentKey(place: Place): string requires Known(place) { "firewall-assignment/" + Suffix(place) }
  function UpdateKey(place: Place): string requires Known(place) { "floating-ip-update/" + Suffix(place) }
  function VMRemovalKey(place: Place): string requires Known(place) { "vm-delete/" + Suffix(place) }
  function AddressRemovalKey(place: Place): string requires Known(place) { "floating-ip-delete/" + Suffix(place) }

  const BASTION_FIREWALL := "firewall/bastion"
  const NODE_FIREWALL := "firewall/nodes"
  const BASTION_FIREWALL_REMOVAL := "firewall-delete/bastion"
  const NODE_FIREWALL_REMOVAL := "firewall-delete/nodes"

  lemma SuffixesDiffer(a: Place, b: Place)
    requires Known(a) && Known(b) && a != b
    ensures Suffix(a) != Suffix(b)
  {
    if a.Bastion? || b.Bastion? {
      assert |Suffix(a)| != |Suffix(b)|;
    } else {
      assert Suffix(a)[14] != Suffix(b)[14];
    }
  }

  /** The firewall that stands before the VM of a place. */
  function FirewallKey(place: Place): string { if place.Bastion? then BASTION_FIREWALL else NODE_FIREWALL }

  /** Appending a place's suffix to a key prefix tells places apart. */
  lemma SuffixedDiffer(prefix: string, a: Place, b: Place)
    requires Known(a) && Known(b)
    ensures prefix + Suffix(a) == prefix + Suffix(b) ==> a == b
  {
    assert (prefix + Suffix(a))[|prefix|..] == Suffix(a) && (prefix + Suffix(b))[|prefix|..] == Suffix(b);
    if a != b { SuffixesDiffer(a, b); }
  }

  /** Keys of different families differ in one of their first nine characters. */
  lemma FamiliesDiffer(a: Place, b: Place)
    requires Known(a) && Known(b)
    ensures VMKey(a) != AssignmentKey(b) && VMKey(a) != UpdateKey(b) && AssignmentKey(a) != UpdateKey(b)
  {
    assert VMKey(a)[0] == 'v' && AssignmentKey(b)[0] == 'f' && UpdateKey(b)[0] == 'f';
    assert AssignmentKey(a)[1] == 'i' && UpdateKey(b)[1] == 'l';
  }

  lemma FirewallsDiffer(a: Place)
    requires Known(a)
    ensures BASTION_FIREWALL != NODE_FIREWALL
            && {BASTION_FIREWALL, NODE_FIREWALL} !! {VMKey(a), AssignmentKey(a), UpdateKey(a)}
  {
    assert VMKey(a)[0] == 'v' && AssignmentKey(a)[8] == '-' && UpdateKey(a)[1] == 'l';
    assert BASTION_FIREWALL[..9] == "firewall/" && NODE_FIREWALL[..9] == "firewall/";
    assert BASTION_FIREWALL[9] != NODE_FIREWALL[9];
  }

  /** No two create-side ledger keys coincide: each family tells places apart, and keys of
      different families or of the two firewalls differ. */
  lemma CreateKeysDiffer(a: Place, b: Place)
    requires Known(a) && Known(b)
    ensures VMKey(a) == VMKey(b) || AssignmentKey(a) == AssignmentKey(b) || UpdateKey(a) == UpdateKey(b) ==> a == b
    ensures VMKey(a) != AssignmentKey(b) && VMKey(a) != UpdateKey(b) && AssignmentKey(a) != UpdateKey(b)
    ensures BASTION_FIREWALL != NODE_FIREWALL
            && {BASTION_FIREWALL, NODE_FIREWALL} !! {VMKey(a), AssignmentKey(a), UpdateKey(a)}
  {
    FamiliesDiffer(a, b);
    FirewallsDiffer(a);
    SuffixedDiffer("vm/", a, b);
    SuffixedDiffer("firewall-assignment/", a, b);
    SuffixedDiffer("floating-ip-update/", a, b);
  }

  /** No two removal-side ledger keys coincide. */
  lemma RemovalKeysDiffer(a: Place, b: Place)
    requires Known(a) && Known(b)
    ensures VMRemovalKey(a) == VMRemovalKey(b) || AddressRemovalKey(a) == AddressRemovalKey(b) ==> a == b
    ensures VMRemovalKey(a) != AddressRemovalKey(b)
    ensures BASTION_FIREWALL_REMOVAL != NODE_FIREWALL_REMOVAL
    ensures {BASTION_FIREWALL_REMOVAL, NODE_FIREWALL_REMOVAL} !! {VMRemovalKey(a), AddressRemovalKey(a)}
  {
    SuffixedDiffer("vm-delete/", a, b);
    SuffixedDiffer("floating-ip-delete/", a, b);
    assert VMRemovalKey(a)[0] == 'v' && AddressRemovalKey(a)[1] == 'l' && AddressRemovalKey(b)[0] == 'f';
    assert BASTION_FIREWALL_REMOVAL[1] == 'i' && NODE_FIREWALL_REMOVAL[1] == 'i' && BASTION_FIREWALL_REMOVAL[0] == 'f'
        && NODE_FIREWALL_REMOVAL[0] == 'f';
    assert BASTION_FIREWALL_REMOVAL[16] != NODE_FIREWALL_REMOVAL[16];
  }
}
