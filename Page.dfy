/**
 * The overlays the recipe buttons put on the page (script.js:46-133). Each
 * click on a recipe button appends a new overlay to the document body without
 * looking for one already open, so overlays can stack. An overlay goes away
 * when one of its two close buttons is clicked (script.js:95, 119) or when a
 * click lands on the overlay itself rather than on something inside it
 * (script.js:128-131). Styles and the rest of the body are not modelled.
 */
module Page {
  import opened Recipes
  import opened Markup

  /** An overlay element: its identity on the page and the markup of its panel. */
  datatype Overlay = Overlay(id: nat, panel: string)

  /** Where a click on an overlay lands. */
  datatype ClickTarget =
    | Backdrop     // the overlay element itself, around the panel
    | Inside       // the panel or anything in it other than the two buttons
    | CornerClose  // the round "×" button at the panel's corner
    | FooterClose  // the "Close" button under the instructions

  predicate DistinctIds(os: seq<Overlay>) {
    forall i, j :: 0 <= i < j < |os| ==> os[i].id != os[j].id
  }

  /** `modal.remove()` for the overlay `id`: the overlays other than it, in their order. */
  function Without(os: seq<Overlay>, id: nat): (r: seq<Overlay>)
    ensures forall o :: o in r <==> o in os && o.id != id
    ensures |r| <= |os|
  {
    if os == [] then []
    else
      assert os == [os[0]] + os[1..];
      if os[0].id == id then Without(os[1..], id) else [os[0]] + Without(os[1..], id)
  }

  /** Removing keeps the overlays' identities distinct. */
  lemma {:induction false} WithoutDistinct(os: seq<Overlay>, id: nat)
    requires DistinctIds(os)
    ensures DistinctIds(Without(os, id))
  {
    if os != [] {
      var tail := os[1..];
      assert DistinctIds(tail) by {
        forall i, j | 0 <= i < j < |tail| ensures tail[i].id != tail[j].id {
          assert tail[i] == os[i + 1] && tail[j] == os[j + 1];
        }
      }
      WithoutDistinct(tail, id);
      if os[0].id != id {
        var rest := Without(tail, id);
        forall o | o in rest ensures o.id != os[0].id {
          var k :| 0 <= k < |tail| && tail[k] == o;
          assert o == os[k + 1];
        }
        var r := [os[0]] + rest;
        forall i, j | 0 <= i < j < |r| ensures r[i].id != r[j].id {
          assert r[j] == rest[j - 1] && r[j] in rest;
          if 0 < i {
            assert r[i] == rest[i - 1];
          }
        }
      }
    }
  }

  /** Removing an overlay that is not on the page changes nothing. */
  lemma {:induction false} WithoutAbsent(os: seq<Overlay>, id: nat)
    requires forall o :: o in os ==> o.id != id
    ensures Without(os, id) == os
  {
    if os != [] {
      assert forall o :: o in os[1..] ==> o in os;
      WithoutAbsent(os[1..], id);
      assert os == [os[0]] + os[1..];
    }
  }

  /** Removing the overlay at position `k` takes out exactly that one and keeps the others in order. */
  lemma {:induction false} WithoutAt(os: seq<Overlay>, k: nat)
    requires DistinctIds(os) && k < |os|
    ensures Without(os, os[k].id) == os[..k] + os[k + 1..]
  {
    var id := os[k].id;
    if k == 0 {
      forall o | o in os[1..] ensures o.id != id {
        var j :| 0 <= j < |os[1..]| && os[1..][j] == o;
        assert o == os[j + 1];
      }
      WithoutAbsent(os[1..], id);
    } else {
      var tail := os[1..];
      assert DistinctIds(tail) by {
        forall i, j | 0 <= i < j < |tail| ensures tail[i].id != tail[j].id {
          assert tail[i] == os[i + 1] && tail[j] == os[j + 1];
        }
      }
      assert tail[k - 1] == os[k];
      WithoutAt(tail, k - 1);
      assert os[0].id != id;
      assert tail[..k - 1] == os[1..k] && tail[k..] == os[k + 1..];
      assert os[..k] == [os[0]] + os[1..k];
    }
  }

  /** The overlays on the page. */
  class Document {
    var overlays: seq<Overlay>  // the overlay elements in the body, oldest first
    var created: nat            // how many overlays have been made; the next one's id

    ghost predicate Valid()
      reads this
    {
      && DistinctIds(overlays)
      && forall i :: 0 <= i < |overlays| ==> overlays[i].id < created
    }

    constructor ()
      ensures Valid()
      ensures overlays == [] && created == 0
    {
      overlays := [];
      created := 0;
    }

    /**
     * A click on the recipe button of the card titled `cardTitle`
     * (script.js:47-125): look the recipe up, render its panel and append a
     * new overlay; the overlays already open stay where they are.
     */
    method OpenRecipe(cardTitle: string) returns (id: nat)
      requires Valid()
      modifies this
      ensures Valid()
      ensures overlays == old(overlays) + [Overlay(id, RenderModal(GetRecipeDetails(cardTitle)))]
      ensures forall o :: o in old(overlays) ==> o.id != id
      ensures created == old(created) + 1
    {
      id := created;
      var panel := RenderModal(GetRecipeDetails(cardTitle));
      overlays := overlays + [Overlay(id, panel)];
      created := created + 1;
    }

    /**
     * A click that lands on `target` in the overlay `id` (script.js:95, 119,
     * 128-131): a close button removes its own overlay, a click on the
     * overlay itself removes it, a click inside the panel does nothing.
     */
    method Click(id: nat, target: ClickTarget)
      requires Valid()
      modifies this
      ensures Valid()
      ensures created == old(created)
      ensures target == Inside ==> overlays == old(overlays)
      ensures target != Inside ==> overlays == Without(old(overlays), id)
    {
      if target == CornerClose || target == FooterClose {
        // the button's inline handler removes the overlay that encloses it
        WithoutDistinct(overlays, id);
        overlays := Without(overlays, id);
      }
      // The click then reaches the overlay's own listener, which removes the
      // overlay only when the overlay itself is the target.
      if target == Backdrop {
        WithoutDistinct(overlays, id);
        overlays := Without(overlays, id);
      }
    }
  }

  /** Two recipe clicks stack two overlays, the first one staying below. */
  method StackingScenario(title: string, other: string) {
    var page := new Document();
    var first := page.OpenRecipe(title);
    var second := page.OpenRecipe(other);
    assert |page.overlays| == 2 && first != second;
    assert page.overlays[0].id == first && page.overlays[1].id == second;
    CloseScenario(page, first, second);
  }

  /** With two overlays open, a click inside the top one keeps both; its Close button removes only it; a click on the backdrop of the other removes that one. */
  method CloseScenario(page: Document, first: nat, second: nat)
    requires page.Valid() && |page.overlays| == 2
    requires page.overlays[0].id == first && page.overlays[1].id == second
    modifies page
  {
    ghost var two := page.overlays;
    page.Click(second, Inside);
    assert page.overlays == two;
    page.Click(second, FooterClose);
    WithoutAt(two, 1);
    assert two[..1] + two[2..] == [two[0]];
    assert page.overlays == [two[0]];
    page.Click(first, Backdrop);
    WithoutAt([two[0]], 0);
    assert page.overlays == [];
  }
}
