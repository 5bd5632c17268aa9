/**
 * The activities section of the home page: the active activities as
 * numbered cards, each with a picture that falls back to a placeholder
 * once it fails to load.
 */
module SeccionActividades {
  import opened Text
  import opened Wrappers
  import opened Lists

  /** An activity; `imagen` is `None` when the field is missing. */
  datatype Actividad = Actividad(id: int, titulo: string, imagen: Option<string>, activa: bool)

  const PlaceholderPrefix := "https://via.placeholder.com/400x300/722F37/FFFFFF?text="

  /** The ids whose picture failed: `imageErrors[id]` is truthy. */
  predicate Errored(imageErrors: map<int, bool>, id: int) {
    id in imageErrors && imageErrors[id]
  }

  /**
   * `getImageSource`. `encode` is `encodeURIComponent`. A picture that
   * failed is replaced by the placeholder named after the title; an "http"
   * address is kept; a non-empty path gets a leading "/" when it lacks one;
   * anything else (a missing or empty picture, a rooted path) is kept as is.
   */
  function GetImageSource(a: Actividad, imageErrors: map<int, bool>, encode: string -> string): (src: Option<string>)
    ensures Errored(imageErrors, a.id) ==> src == Some(PlaceholderPrefix + encode(a.titulo))
    ensures !Errored(imageErrors, a.id) && a.imagen.Some? && StartsWith(a.imagen.value, "http") ==> src == a.imagen
    ensures (!Errored(imageErrors, a.id) && a.imagen.Some? && a.imagen.value != ""
             && !StartsWith(a.imagen.value, "http") && !StartsWith(a.imagen.value, "/"))
            ==> src == Some("/" + a.imagen.value)
    ensures !Errored(imageErrors, a.id) && (a.imagen.None? || a.imagen.value == "" || StartsWith(a.imagen.value, "/")) ==> src == a.imagen
  {
    if Errored(imageErrors, a.id) then Some(PlaceholderPrefix + encode(a.titulo))
    else if a.imagen.Some? && StartsWith(a.imagen.value, "http") then a.imagen
    else if a.imagen.Some? && a.imagen.value != "" && !StartsWith(a.imagen.value, "/") then Some("/" + a.imagen.value)
    else a.imagen
  }

  /** Without an error, a non-empty picture ends up rooted at "/" or remote, and normalising again changes nothing. */
  lemma ImageSourceSettles(a: Actividad, imageErrors: map<int, bool>, encode: string -> string)
    requires !Errored(imageErrors, a.id) && a.imagen.Some? && a.imagen.value != ""
    ensures var src := GetImageSource(a, imageErrors, encode);
      src.Some? && (StartsWith(src.value, "/") || StartsWith(src.value, "http"))
      && GetImageSource(a.(imagen := src), imageErrors, encode) == src
  {
    var s := a.imagen.value;
    if !StartsWith(s, "http") && !StartsWith(s, "/") {
      assert ("/" + s)[..1] == "/";
    }
  }

  /** The activities shown: the active ones, in order. */
  function Activas(actividades: seq<Actividad>): (r: seq<Actividad>)
    ensures forall i :: 0 <= i < |r| ==> r[i].activa && r[i] in actividades
    ensures forall i :: 0 <= i < |actividades| && actividades[i].activa ==> actividades[i] in r
  {
    Filter(actividades, (a: Actividad) => a.activa)
  }

  /** The "coming soon" section replaces the grid exactly when no activity is active. */
  lemma PlaceholderIffNoneActive(actividades: seq<Actividad>)
    ensures |Activas(actividades)| == 0 <==> forall i :: 0 <= i < |actividades| ==> !actividades[i].activa
  {
    if |Activas(actividades)| != 0 {
      var r := Activas(actividades);
      assert r[0].activa && r[0] in actividades;
    }
  }

  /** The cards: each shown activity with its number, counting from one. */
  function Cards(actividades: seq<Actividad>): (cards: seq<(int, Actividad)>)
    ensures |cards| == |Activas(actividades)|
    ensures forall i :: 0 <= i < |cards| ==> cards[i] == (i + 1, Activas(actividades)[i])
  {
    var shown := Activas(actividades);
    seq(|shown|, i requires 0 <= i < |shown| => (i + 1, shown[i]))
  }

  class ActivitiesSection {
    var imageErrors: map<int, bool>

    constructor ()
      ensures imageErrors == map[]
    {
      imageErrors := map[];
    }

    /** `handleImageError`: only that activity's flag is set. */
    method HandleImageError(id: int)
      modifies this
      ensures imageErrors == old(imageErrors)[id := true]
      ensures Errored(imageErrors, id)
      ensures forall k :: k != id ==> (Errored(imageErrors, k) <==> Errored(old(imageErrors), k))
    {
      imageErrors := imageErrors[id := true];
    }
  }

  /** After a load error, that activity shows the placeholder and every other activity its usual picture. */
  lemma ErrorAffectsOnlyThatActivity(imageErrors: map<int, bool>, id: int, a: Actividad, encode: string -> string)
    ensures a.id == id ==> GetImageSource(a, imageErrors[id := true], encode) == Some(PlaceholderPrefix + encode(a.titulo))
    ensures a.id != id ==> GetImageSource(a, imageErrors[id := true], encode) == GetImageSource(a, imageErrors, encode)
  {
  }
}
