/**
 * The rooms carousel on the home page: each card shows the room's picture
 * and a heart that adds the room to, or removes it from, the favourites.
 */
module SeccionHabitaciones {
  import opened Text
  import opened Lists

  /** The test `f !== id` of the favourites filter. */
  function Other(id: int): int -> bool {
    (f: int) => f != id
  }

  /**
   * `toggleFavorito` on the list of favourite ids: removes every occurrence
   * of `id` when present, appends it otherwise.
   */
  function Toggled(favoritos: seq<int>, id: int): seq<int> {
    if id in favoritos then Filter(favoritos, Other(id)) else favoritos + [id]
  }

  /** Toggling flips whether the id is a favourite. */
  lemma ToggleFlipsMembership(favoritos: seq<int>, id: int)
    ensures id in Toggled(favoritos, id) <==> id !in favoritos
  {
    if id in favoritos {
      var r := Filter(favoritos, Other(id));
      assert forall i :: 0 <= i < |r| ==> Other(id)(r[i]);
    } else {
      assert (favoritos + [id])[|favoritos|] == id;
    }
  }

  /** Every other id keeps its place: the list without `id` is the same before and after. */
  lemma ToggleKeepsOthers(favoritos: seq<int>, id: int)
    ensures Filter(Toggled(favoritos, id), Other(id)) == Filter(favoritos, Other(id))
  {
    if id in favoritos {
      var r := Filter(favoritos, Other(id));
      FilterKeepsAll(r, Other(id));
    } else {
      FilterConcat(favoritos, [id], Other(id));
      assert Filter([id], Other(id)) == [];
    }
  }

  /** Toggling an id that is not a favourite twice gives back the same list. */
  lemma ToggleTwiceRestores(favoritos: seq<int>, id: int)
    requires id !in favoritos
    ensures Toggled(Toggled(favoritos, id), id) == favoritos
  {
    var once := favoritos + [id];
    assert id in once by { assert once[|favoritos|] == id; }
    FilterConcat(favoritos, [id], Other(id));
    assert Filter([id], Other(id)) == [];
    FilterKeepsAll(favoritos, Other(id));
  }

  /** Toggling never creates a duplicate. */
  lemma ToggleKeepsDistinct(favoritos: seq<int>, id: int)
    requires Distinct(favoritos)
    ensures Distinct(Toggled(favoritos, id))
  {
    if id in favoritos {
      FilterDistinct(favoritos, Other(id));
    }
  }

  /** The default picture of each room type; unknown types use the suite's. */
  function DefaultImage(tipo: string): string {
    match tipo
    case "suite" => "suitel.jpg"
    case "doble" => "doble1.jpg"
    case "familiar" => "familiar1.jpg"
    case "simple" => "simple1.jpg"
    case _ => "suitel.jpg"
  }

  /**
   * `obtenerImagen`: a missing picture gives the type's default under
   * "/images/"; an "http" address is kept; any other path is put under
   * "/images/" unless it is already there.
   */
  function ObtenerImagen(imagen: string, tipo: string): (src: string)
    ensures imagen == "" ==> src == "/images/" + DefaultImage(tipo)
    ensures imagen != "" && StartsWith(imagen, "http") ==> src == imagen
    ensures imagen != "" && !StartsWith(imagen, "http") && !StartsWith(imagen, "/images/") ==> src == "/images/" + imagen
    ensures StartsWith(imagen, "/images/") ==> src == imagen
  {
    if imagen == "" then "/images/" + DefaultImage(tipo)
    else if StartsWith(imagen, "http") then imagen
    else if !StartsWith(imagen, "/images/") then "/images/" + imagen
    else imagen
  }

  lemma PrefixOfConcat(a: string, b: string)
    ensures StartsWith(a + b, a)
  {
    assert (a + b)[..|a|] == a;
  }

  /** Every picture address is local under "/images/" or remote. */
  lemma ImageIsLocalOrRemote(imagen: string, tipo: string)
    ensures StartsWith(ObtenerImagen(imagen, tipo), "/images/") || StartsWith(ObtenerImagen(imagen, tipo), "http")
  {
    if imagen == "" {
      PrefixOfConcat("/images/", DefaultImage(tipo));
    } else if !StartsWith(imagen, "http") && !StartsWith(imagen, "/images/") {
      PrefixOfConcat("/images/", imagen);
    }
  }

  /** Normalising an address twice is normalising it once. */
  lemma ObtenerImagenIdempotent(imagen: string, tipo: string)
    ensures ObtenerImagen(ObtenerImagen(imagen, tipo), tipo) == ObtenerImagen(imagen, tipo)
  {
    ImageIsLocalOrRemote(imagen, tipo);
  }

  /** The picture used when the room's own one fails to load. */
  function FallbackImage(tipo: string): (src: string)
    ensures tipo == "suite" ==> src == "/images/suitel.jpg"
    ensures tipo != "suite" ==> src == "/images/doble1.jpg"
  {
    if tipo == "suite" then "/images/suitel.jpg" else "/images/doble1.jpg"
  }

  class Showcase {
    var favoritos: seq<int>

    constructor ()
      ensures favoritos == []
    {
      favoritos := [];
    }

    /** The heart button. */
    method ToggleFavorito(id: int)
      modifies this
      ensures favoritos == Toggled(old(favoritos), id)
      ensures id in favoritos <==> id !in old(favoritos)
      ensures Distinct(old(favoritos)) ==> Distinct(favoritos)
    {
      ToggleFlipsMembership(favoritos, id);
      if Distinct(favoritos) {
        ToggleKeepsDistinct(favoritos, id);
      }
      if id in favoritos {
        favoritos := Filter(favoritos, Other(id));
      } else {
        favoritos := favoritos + [id];
      }
    }
  }
}
