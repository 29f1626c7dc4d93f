/**
  The edition classifier: which installed game a resource folder holds, decided from its name
  by an ordered chain of substring tests (src/main.cpp, PopulateAssets).
*/
module Editions {
  import opened Text
  import opened Config

  /** The edition tags; `UNKNOWN` is also the sentinel that ends the selection loop. */
  datatype Tag = NFS_2_SE | NFS_2 | NFS_3_PS1 | NFS_3 | NFS_4 | UNKNOWN

  /** The folder-name token of an edition: `ToString(tag)`. */
  function Token(tag: Tag): string {
    match tag
    case NFS_2_SE => NFS_2_SE_TOKEN
    case NFS_2 => NFS_2_TOKEN
    case NFS_3_PS1 => NFS_3_PS1_TOKEN
    case NFS_3 => NFS_3_TOKEN
    case NFS_4 => NFS_4_TOKEN
    case UNKNOWN => "UNKNOWN"
  }

  /** What a child of the resource root is. */
  datatype FolderKind = Edition(tag: Tag) | Lanes | Misc | Sfx | Unrecognised

  /**
    The classification chain of PopulateAssets: the first of NFS_2_SE, NFS_2, NFS_3_PS1, NFS_3,
    NFS_4, lanes, misc, sfx whose token occurs in the name decides.
  */
  function Classify(name: string): (k: FolderKind)
    ensures k != Edition(UNKNOWN)
  {
    if Contains(name, Token(NFS_2_SE)) then Edition(NFS_2_SE)
    else if Contains(name, Token(NFS_2)) then Edition(NFS_2)
    else if Contains(name, Token(NFS_3_PS1)) then Edition(NFS_3_PS1)
    else if Contains(name, Token(NFS_3)) then Edition(NFS_3)
    else if Contains(name, Token(NFS_4)) then Edition(NFS_4)
    else if Contains(name, LANES_TOKEN) then Lanes
    else if Contains(name, MISC_TOKEN) then Misc
    else if Contains(name, SFX_TOKEN) then Sfx
    else Unrecognised
  }

  /** The priority table, most specific token first: an explicit ordered list of (token, kind). */
  const RULES: seq<(string, FolderKind)> := [
    (NFS_2_SE_TOKEN, Edition(NFS_2_SE)),
    (NFS_2_TOKEN, Edition(NFS_2)),
    (NFS_3_PS1_TOKEN, Edition(NFS_3_PS1)),
    (NFS_3_TOKEN, Edition(NFS_3)),
    (NFS_4_TOKEN, Edition(NFS_4)),
    (LANES_TOKEN, Lanes),
    (MISC_TOKEN, Misc),
    (SFX_TOKEN, Sfx)
  ]

  /** Reference classifier: the kind of the first rule whose token occurs in the name. */
  function FirstMatch(name: string, rules: seq<(string, FolderKind)>): FolderKind {
    if rules == [] then Unrecognised
    else if Contains(name, rules[0].0) then rules[0].1
    else FirstMatch(name, rules[1..])
  }

  /** One step of the reference classifier, at position `i` of the table. */
  lemma FirstMatchAt(name: string, rules: seq<(string, FolderKind)>, i: nat)
    requires i < |rules|
    ensures FirstMatch(name, rules[i..]) ==
              if Contains(name, rules[i].0) then rules[i].1 else FirstMatch(name, rules[i + 1..])
  {
    assert rules[i..][1..] == rules[i + 1..];
  }

  /** The chain in PopulateAssets is exactly first-match over the priority table. */
  lemma ClassifyIsFirstMatch(name: string)
    ensures Classify(name) == FirstMatch(name, RULES)
  {
    assert RULES[0..] == RULES;
    FirstMatchAt(name, RULES, 0);
    FirstMatchAt(name, RULES, 1);
    FirstMatchAt(name, RULES, 2);
    FirstMatchAt(name, RULES, 3);
    FirstMatchAt(name, RULES, 4);
    FirstMatchAt(name, RULES, 5);
    FirstMatchAt(name, RULES, 6);
    FirstMatchAt(name, RULES, 7);
    assert RULES[8..] == [];
  }

  /** Position of an edition in the priority order. */
  function Rank(tag: Tag): nat {
    match tag
    case NFS_2_SE => 0
    case NFS_2 => 1
    case NFS_3_PS1 => 2
    case NFS_3 => 3
    case NFS_4 => 4
    case UNKNOWN => 5
  }

  /** The name mentions some edition's token. */
  predicate MentionsEdition(name: string) {
    exists t: Tag :: t != UNKNOWN && Contains(name, Token(t))
  }

  /**
    A folder is tagged with an edition exactly when that edition's token occurs in its name and
    no token earlier in the priority order does.
  */
  lemma ClassifyEdition(name: string, tag: Tag)
    ensures Classify(name) == Edition(tag) <==>
              tag != UNKNOWN && Contains(name, Token(tag)) &&
              forall u: Tag :: Rank(u) < Rank(tag) ==> !Contains(name, Token(u))
  {
    if Classify(name) == Edition(tag) {
      forall u: Tag | Rank(u) < Rank(tag) ensures !Contains(name, Token(u)) {
      }
    }
  }

  /** The shorter tokens occur inside the longer ones, which is why their order matters. */
  lemma TokenNesting()
    ensures Contains(Token(NFS_2_SE), Token(NFS_2))
    ensures Contains(Token(NFS_3_PS1), Token(NFS_3))
  {
    assert OccursAt(Token(NFS_2_SE), Token(NFS_2), 0);
    assert OccursAt(Token(NFS_3_PS1), Token(NFS_3), 0);
  }

  /**
    A Special Edition folder also matches the NFS 2 token, yet it is never tagged NFS 2;
    likewise a PlayStation NFS 3 folder is never tagged NFS 3.
  */
  lemma SpecificEditionWins(name: string)
    ensures Contains(name, Token(NFS_2_SE)) ==>
              Contains(name, Token(NFS_2)) && Classify(name) == Edition(NFS_2_SE)
    ensures Contains(name, Token(NFS_3_PS1)) && !Contains(name, Token(NFS_2)) ==>
              Contains(name, Token(NFS_3)) && Classify(name) == Edition(NFS_3_PS1)
  {
    TokenNesting();
    if Contains(name, Token(NFS_2_SE)) {
      ContainsTransitive(name, Token(NFS_2_SE), Token(NFS_2));
    }
    if Contains(name, Token(NFS_3_PS1)) {
      ContainsTransitive(name, Token(NFS_3_PS1), Token(NFS_3));
    }
  }

  /**
    Edition tokens take precedence over the shared-folder tokens: a folder is an edition exactly
    when its name mentions an edition, and a shared folder only when it mentions none.
  */
  lemma EditionBeforeShared(name: string)
    ensures Classify(name).Edition? <==> MentionsEdition(name)
    ensures Classify(name) == Lanes <==> !MentionsEdition(name) && Contains(name, LANES_TOKEN)
    ensures Classify(name) == Misc <==>
              !MentionsEdition(name) && !Contains(name, LANES_TOKEN) && Contains(name, MISC_TOKEN)
    ensures Classify(name) == Sfx <==>
              !MentionsEdition(name) && !Contains(name, LANES_TOKEN) && !Contains(name, MISC_TOKEN) &&
              Contains(name, SFX_TOKEN)
    ensures Classify(name) == Unrecognised <==>
              !MentionsEdition(name) && !Contains(name, LANES_TOKEN) && !Contains(name, MISC_TOKEN) &&
              !Contains(name, SFX_TOKEN)
  {
    if MentionsEdition(name) {
      var t: Tag :| t != UNKNOWN && Contains(name, Token(t));
      assert Classify(name).Edition?;
    }
    if Classify(name).Edition? {
      assert Contains(name, Token(Classify(name).tag));
    }
  }
}
