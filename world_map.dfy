/** The world map (src/pages/WorldMap.tsx): five fixed zones, each a direct link to its page. */
module WorldMap {
  import AppRoutes

  /** The five accent colours a zone card can take; each has a style entry. */
  datatype ZoneColor = Magic | Gold | Exp | Mana | Health

  /** A zone card; its icon and on-screen position are presentation only. */
  datatype Zone = Zone(id: string, title: string, description: string, route: string, color: ZoneColor)

  const Zones: seq<Zone> := [
    Zone("profile", "Stats Tower", "Character profile & abilities", "/profile", Magic),
    Zone("projects", "Quest Board", "Epic projects & challenges", "/projects", Gold),
    Zone("experience", "Experience Forest", "Professional journey", "/experience", Exp),
    Zone("achievements", "Trophy Cave", "Certifications & awards", "/achievements", Mana),
    Zone("contact", "Portal Gate", "Send a message quest", "/contact", Health)
  ]

  /**
   * A click on a zone card: `navigate(zone.route)` and nothing else. The result
   * lists the paths handed to `navigate`, in order.
   */
  function OnZoneClick(z: Zone): (paths: seq<string>)
    ensures |paths| == 1 && paths[0] == z.route
    ensures z in Zones ==> AppRoutes.Registered(paths[0])
  {
    if z in Zones then MapTargetsRegistered(); [z.route] else [z.route]
  }

  /** A click on the Home button: a single `navigate("/")`. */
  function OnHomeClick(): (paths: seq<string>)
    ensures paths == ["/"]
    ensures AppRoutes.Registered(paths[0])
  {
    assert AppRoutes.Routes[0] == "/";
    ["/"]
  }

  /** Five zones with distinct ids, each routed to "/" followed by its id. */
  lemma ZoneTableWellFormed()
    ensures |Zones| == 5
    ensures forall i, j | 0 <= i < j < |Zones| :: Zones[i].id != Zones[j].id
    ensures forall z | z in Zones :: z.route == "/" + z.id
  {
  }

  /** Every click on the map, zone or Home button, leads straight to a registered route with no loading step. */
  lemma MapTargetsRegistered()
    ensures forall z | z in Zones :: AppRoutes.Registered(z.route)
    ensures AppRoutes.Registered("/")
  {
    assert AppRoutes.Routes[0] == "/";
    forall z | z in Zones
      ensures AppRoutes.Registered(z.route)
    {
      if z == Zones[0] {
        assert AppRoutes.Routes[2] == z.route;
      } else if z == Zones[1] {
        assert AppRoutes.Routes[3] == z.route;
      } else if z == Zones[2] {
        assert AppRoutes.Routes[6] == z.route;
      } else if z == Zones[3] {
        assert AppRoutes.Routes[4] == z.route;
      } else {
        assert AppRoutes.Routes[5] == z.route;
      }
    }
  }
}
