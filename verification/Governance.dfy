/** Actor names asserted by the governance workload: a namespace and a 32-bit number, spelled canonically. */
module Governance {
  import opened Text

  const USER := "governance:user:"
  const ACCESS_KEY := "governance:access-key:"

  /** `strconv.ParseUint` in base 10 with 32 bits: leading zeros are fine, an empty text is not. */
  function ParseUint32(s: string): Option<nat> {
    if s == "" || !AllDigits(s) || DigitsValue(s) > 0xFFFF_FFFF then None else Some(DigitsValue(s))
  }

  predicate HasPrefix(s: string, prefix: string) { |prefix| <= |s| && s[..|prefix|] == prefix }

  /** The first prefix that fits decides. */
  method ValidActor(actor: string) returns (ok: bool)
    ensures ok <==> exists prefix, id :: Prints(actor, prefix, id)
    ensures ok ==> actor != "governance:user:0" && actor != "governance:access-key:0"
  {
    if actor == "governance:user:0" || actor == "governance:access-key:0" { PrintsNotZero(actor); }
    var prefixes := [USER, ACCESS_KEY];
    for n := 0 to |prefixes|
      invariant forall k :: 0 <= k < n ==> !HasPrefix(actor, prefixes[k])
    {
      var prefix := prefixes[n];
      if HasPrefix(actor, prefix) {
        var id := ParseUint32(actor[|prefix|..]);
        ok := id.Some? && id.value != 0 && actor == prefix + Decimal(id.value);
        AcceptedUnder(actor, prefix, ok);
        return;
      }
    }
    forall prefix, id ensures !Prints(actor, prefix, id) {
      assert prefixes[0] == USER && prefixes[1] == ACCESS_KEY;
    }
    return false;
  }

  /** The name of actor `id` in a namespace. */
  ghost predicate Prints(actor: string, prefix: string, id: nat) {
    && (prefix == "governance:user:" || prefix == "governance:access-key:")
    && 1 <= id <= 4_294_967_295 && actor == prefix + Decimal(id)
  }

  lemma PrintsNotZero(actor: string)
    requires actor == "governance:user:0" || actor == "governance:access-key:0"
    ensures forall prefix, id :: !Prints(actor, prefix, id)
  {
    forall prefix, id ensures !Prints(actor, prefix, id) {
      if Prints(actor, prefix, id) {
        assert HasPrefix(actor, prefix);
        PrefixesDisjoint(actor);
        assert actor[|prefix|..] == Decimal(0) && actor[|prefix|..] == Decimal(id);
        DecimalInjective(0, id);
      }
    }
  }

  lemma PrefixesDisjoint(actor: string)
    ensures !(HasPrefix(actor, USER) && HasPrefix(actor, ACCESS_KEY))
  {
    assert HasPrefix(actor, USER) ==> actor[..|USER|][11] == 'u';
    assert HasPrefix(actor, ACCESS_KEY) ==> actor[..|ACCESS_KEY|][11] == 'a';
  }

  /** A printed name has exactly one namespace and one number. */
  lemma NamesAreUnique(actor: string, prefix: string, id: nat, prefix': string, id': nat)
    requires Prints(actor, prefix, id) && Prints(actor, prefix', id')
    ensures prefix == prefix' && id == id'
  {
    assert HasPrefix(actor, prefix) && HasPrefix(actor, prefix');
    PrefixesDisjoint(actor);
    assert actor[|prefix|..] == Decimal(id) && actor[|prefix|..] == Decimal(id');
    DecimalInjective(id, id');
  }

  lemma AcceptedUnder(actor: string, prefix: string, ok: bool)
    requires (prefix == USER || prefix == ACCESS_KEY) && HasPrefix(actor, prefix)
    requires ok <==> var id := ParseUint32(actor[|prefix|..]);
                     id.Some? && id.value != 0 && actor == prefix + Decimal(id.value)
    ensures ok <==> exists prefix', id :: Prints(actor, prefix', id)
  {
    if ok { assert Prints(actor, prefix, ParseUint32(actor[|prefix|..]).value); }
    if prefix', id :| Prints(actor, prefix', id) {
      assert HasPrefix(actor, prefix');
      PrefixesDisjoint(actor);
      assert actor[|prefix|..] == Decimal(id);
      DecimalValue(id);
    }
  }
}
