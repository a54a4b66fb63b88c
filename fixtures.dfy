/** The seed catalog the app starts with (constants.tsx). */
module Fixtures {
  import opened Types

  const Rupee: char := '\U{20B9}'

  const InitialTournaments: seq<Tournament> := [
    Tournament("1", "Elite Pro League S1",
      "The biggest regional tournament for professional Free Fire teams.",
      Ongoing, [Rupee] + "50,000", [Rupee] + "500", 48, 48, Bermuda, "2024-05-20",
      "Garena Official", "https://picsum.photos/seed/ff1/800/400"),
    Tournament("2", "Kalahari King Duo Cup",
      "Fast-paced duo action in the desert of Kalahari.",
      Upcoming, [Rupee] + "10,000", "Free", 32, 12, Kalahari, "2024-05-25",
      "Community Hub", "https://picsum.photos/seed/ff2/800/400"),
    Tournament("3", "Midnight Sniper Scrims",
      "Sharpen your skills with AWM and M82B in this sniper-only tournament.",
      Upcoming, [Rupee] + "5,000", [Rupee] + "100", 24, 8, Purgatory, "2024-05-22",
      "Deadshot Gaming", "https://picsum.photos/seed/ff3/800/400")
  ]
}
