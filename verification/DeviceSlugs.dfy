/** Device ids against the id rule of the device schema: ^[a-z][a-z0-9_]{0,62}[a-z0-9]$. */
module DeviceSlugs {
  import opened Lists
  import opened Text
  import opened Numbering
  import opened Catalog
  import opened Dtm
  import opened SitePlan
  import opened DtmSpec
  import opened DtmSoundness

  /** A template name ids can be made from. */
  predicate SnakeCase(t: string) { t != "" && IsLower(t[0]) && AllSlugChars(t) }

  /** A numbered id passes the rule exactly when its template is snake case and the number still fits in 64 characters. */
  lemma {:induction false} SlugValidIff(t: string, n: nat)
    ensures ValidSlug(Slug(t, n)) <==> SnakeCase(t) && |t| + 1 + |Dec(n)| <= 64
  {
    NumOfDec(n);
    var id, d := Slug(t, n), Dec(n);
    assert id == t + ("_" + d) && id[|id| - 1] == d[|d| - 1];
    if SnakeCase(t) {
      forall i | 0 <= i < |id| ensures IsLower(id[i]) || IsDigit(id[i]) || id[i] == '_' {
        assert id[i] == if i < |t| then t[i] else ("_" + d)[i - |t|];
      }
      assert id[0] == t[0];
    }
    if ValidSlug(id) {
      assert id[0] == if t == "" then '_' else t[0];
      forall i | 0 <= i < |t| ensures IsLower(t[i]) || IsDigit(t[i]) || t[i] == '_' {
        assert id[i] == t[i];
      }
    }
  }

  /** A template at the id rule's own length limit leaves no room for a number. */
  lemma LongTemplateFails()
    ensures var t := seq(63, _ => 'a'); ValidSlug(t) && !ValidSlug(Slug(t, 1))
  {
    SlugValidIff(seq(63, _ => 'a'), 1);
  }

  lemma {:induction false} IdAt(issued: seq<string>, names: seq<string>, i: nat)
    requires i < |names|
    ensures Ids(issued, names)[i] == Slug(names[i], Count(issued + names[..i], names[i]) + 1)
  {
    var before, t, rest := names[..i], names[i], names[i + 1..];
    assert names == before + ([t] + rest);
    IdsAppend(issued, before, [t] + rest);
    IdsAppend(issued + before, [t], rest);
    assert [t][..0] == [];
  }

  /** The next id of this name, after these, passes the rule. */
  predicate IdFits(issued: seq<string>, t: string) { SnakeCase(t) && |t| + 1 + |Dec(Count(issued, t) + 1)| <= 64 }

  /** Every device of a block gets an id that fits where numbering stands. */
  ghost predicate PlanIdsFit(issued: seq<string>, p: Plan) {
    forall i :: 0 <= i <= |p.leaves| ==> IdFits(issued + Names(p)[..i], Names(p)[i])
  }

  /** … and so throughout the site: a caller can count the names before anything is generated. */
  ghost predicate SiteIdsFit(plans: seq<Plan>) {
    forall k :: 0 <= k < |plans| ==> PlanIdsFit(AllNames(plans[..k]), plans[k])
  }

  lemma BlockIdFitsIff(issued: seq<string>, p: Plan, i: nat)
    requires i <= |p.leaves|
    ensures i < |BlockDevices(BlockOf(issued, p))|
    ensures ValidSlug(BlockDevices(BlockOf(issued, p))[i].id) <==> IdFits(issued + Names(p)[..i], Names(p)[i])
  {
    IdAt(issued, Names(p), i);
    SlugValidIff(Names(p)[i], Count(issued + Names(p)[..i], Names(p)[i]) + 1);
    assert BlockDevices(BlockOf(issued, p))[i].id == Ids(issued, Names(p))[i];
  }

  lemma BlockIdsValidIff(issued: seq<string>, p: Plan)
    ensures IdsValid(BlockDevices(BlockOf(issued, p))) <==> PlanIdsFit(issued, p)
  {
    var devices := BlockDevices(BlockOf(issued, p));
    forall i | 0 <= i <= |p.leaves| ensures ValidSlug(devices[i].id) <==> IdFits(issued + Names(p)[..i], Names(p)[i]) {
      BlockIdFitsIff(issued, p, i);
    }
  }

  lemma IdsValidAppend(a: seq<Device>, b: seq<Device>)
    ensures IdsValid(a + b) <==> IdsValid(a) && IdsValid(b)
  {
    if IdsValid(a + b) {
      assert forall i :: 0 <= i < |a| ==> a[i] == (a + b)[i];
      assert forall i :: 0 <= i < |b| ==> b[i] == (a + b)[|a| + i];
    }
  }

  lemma {:induction false} BlocksValidSnoc(init: seq<Plan>, p: Plan)
    ensures IdsValid(Flat(Blocks(init + [p]))) <==> IdsValid(Flat(Blocks(init))) && PlanIdsFit(AllNames(init), p)
  {
    var b := BlockOf(AllNames(init), p);
    BlocksSnoc(init, p);
    FlatSnoc(Blocks(init), b);
    IdsValidAppend(Flat(Blocks(init)), BlockDevices(b));
    BlockIdsValidIff(AllNames(init), p);
  }

  ghost predicate ValidIfFit(plans: seq<Plan>) { IdsValid(Flat(Blocks(plans))) <==> SiteIdsFit(plans) }

  lemma {:induction false} NoBlocksValid()
    ensures ValidIfFit([])
  {
  }

  lemma {:induction false} BlocksValidNext(init: seq<Plan>, p: Plan)
    requires ValidIfFit(init)
    ensures ValidIfFit(init + [p])
  {
    BlocksValidSnoc(init, p);
    FitSnoc(init, p);
  }

  lemma {:induction false} BlocksValidIff(plans: seq<Plan>)
    ensures IdsValid(Flat(Blocks(plans))) <==> SiteIdsFit(plans)
  {
    var holds := (ps: seq<Plan>) => ValidIfFit(ps);
    NoBlocksValid();
    forall init, p | holds(init) ensures holds(init + [p]) {
      BlocksValidNext(init, p);
    }
    SnocInduction(holds, plans);
    assert ValidIfFit(plans);
  }

  lemma {:induction false} FitSnoc(init: seq<Plan>, p: Plan)
    ensures SiteIdsFit(init + [p]) <==> SiteIdsFit(init) && PlanIdsFit(AllNames(init), p)
  {
    var plans := init + [p];
    assert plans[..|init|] == init;
    assert forall k :: 0 <= k < |init| ==> plans[..k] == init[..k] && plans[k] == init[k];
    if SiteIdsFit(plans) {
      assert PlanIdsFit(AllNames(plans[..|init|]), plans[|init|]);
      forall k | 0 <= k < |init| ensures PlanIdsFit(AllNames(init[..k]), init[k]) {
        assert PlanIdsFit(AllNames(plans[..k]), plans[k]);
      }
    }
  }

  /** All device ids of a site pass the rule exactly when every template is snake case and its numbers leave it within
      64 characters. */
  lemma SiteIdsValidIff(plans: seq<Plan>, battery: Plan, r: Resolution)
    ensures IdsValid(SiteDevices(plans, battery, r)) <==> SiteIdsFit(plans + [battery])
  {
    BlocksValidIff(plans + [battery]);
    UtilityIdsValid(r.offGrid);
    IdsValidAppend(Flat(Blocks(plans + [battery])), UtilityOf(r.offGrid));
  }

  lemma UtilityIdsValid(offGrid: bool)
    ensures IdsValid(UtilityOf(offGrid))
  {
    assert ValidSlug("der_dispatch") && ValidSlug("operating_envelope");
  }

  // ----- names short enough for any small site -----

  predicate ShortName(t: string) { SnakeCase(t) && |t| <= 60 }

  lemma {:induction false} DecTwoDigits(n: nat)
    requires n < 100
    ensures |Dec(n)| <= 2
  {
    assert n >= 10 ==> n / 10 < 10;
  }

  lemma {:induction false} CountAtMost(names: seq<string>, t: string)
    ensures Count(names, t) <= |names|
  {
    if names != [] {
      CountAtMost(names[..|names| - 1], t);
    }
  }

  lemma ShortFits(issued: seq<string>, t: string)
    requires ShortName(t) && |issued| < 99
    ensures IdFits(issued, t)
  {
    CountAtMost(issued, t);
    DecTwoDigits(Count(issued, t) + 1);
  }

  lemma ShortPlanFits(issued: seq<string>, p: Plan)
    requires |issued| + |Names(p)| < 99 && ShortNames(p)
    ensures PlanIdsFit(issued, p)
  {
    forall i | 0 <= i <= |p.leaves| ensures IdFits(issued + Names(p)[..i], Names(p)[i]) {
      ShortFits(issued + Names(p)[..i], Names(p)[i]);
    }
  }

  ghost predicate ShortNames(p: Plan) { forall i :: 0 <= i < |Names(p)| ==> ShortName(Names(p)[i]) }

  lemma {:induction false} IssuedBefore(plans: seq<Plan>, k: nat)
    requires k < |plans|
    ensures |AllNames(plans[..k])| + |Names(plans[k])| <= |AllNames(plans)|
  {
    var rest := IssuedGrows(plans, k + 1);
    assert plans[..k + 1] == plans[..k] + [plans[k]];
    BlocksSnoc(plans[..k], plans[k]);
  }

  /** A site of fewer than a hundred numbered names, none longer than sixty characters, has ids for all its devices. */
  lemma {:induction false} ShortSiteFits(plans: seq<Plan>)
    requires |AllNames(plans)| < 99 && forall k :: 0 <= k < |plans| ==> ShortNames(plans[k])
    ensures SiteIdsFit(plans)
  {
    forall k | 0 <= k < |plans| ensures PlanIdsFit(AllNames(plans[..k]), plans[k]) {
      IssuedBefore(plans, k);
      ShortPlanFits(AllNames(plans[..k]), plans[k]);
    }
  }

  /** A name at the id rule's own length limit fits no number. */
  lemma LongNeverFits(issued: seq<string>, t: string)
    requires |t| >= 63
    ensures !IdFits(issued, t)
  {
  }
}
