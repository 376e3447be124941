/** The shared game records: posts, ring colours and the status line. */
module Globals {
  import opened Vectors

  /** One entry of `postsData` (its mesh, fire and beacon are held beside it). */
  datatype Post = Post(id: int, center: Vec3, normal: Vec3, entry: Vec3, exit: Vec3)

  /** `generateWorld` numbers the posts in order, so a post's id is its index in `postsData`. */
  predicate Indexed(posts: seq<Post>) {
    forall k :: 0 <= k < |posts| ==> posts[k].id == k
  }

  /** Ring material colours: the ring's run state is encoded by them. */
  const Yellow: int := 0xffaa00  // inactive
  const Blue: int := 0x0088ff    // the current target
  const Red: int := 0xff0000     // passed

  /** Ring emissive colours that go with them. */
  const NoGlow: int := 0x000000
  const BlueGlow: int := 0x004488
  const RedGlow: int := 0x550000

  /** The messages `updateStatus` shows. */
  datatype Status =
    | Initial             // the page's text before any update
    | Generating          // "GENERANDO MUNDO..."
    | NotEnoughPosts      // "ERROR: NO HAY SUFICIENTES POSTES"
    | Targets(count: int) // "OBJETIVOS: n"
    | Pending(left: int)  // "PENDIENTES: n"
    | RoundFinished       // "¡VUELTA TERMINADA!"
}
