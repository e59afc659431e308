/** The static personality catalog (src/data/personalities.ts) and the record
    type it is written against (src/types.ts). */
module Catalog {
  import opened Wrappers

  /** One persona. `lastMessageTime` is a wall-clock value and is left out. */
  datatype Personality = Personality(
    id: string,
    name: string,
    avatar: string,
    description: string,
    lastMessage: Option<string>)

  const Einstein := Personality(
    "1", "Albert Einstein",
    "https://images.unsplash.com/photo-1539321908154-04927596764d?w=400",
    "Theoretical physicist and Nobel laureate",
    Some("Everything is relative, my friend!"))

  const Shakespeare := Personality(
    "2", "William Shakespeare",
    "https://images.unsplash.com/photo-1590086783191-a0694c7d1e6e?w=400",
    "Legendary playwright and poet",
    Some("To chat or not to chat..."))

  const Curie := Personality(
    "3", "Marie Curie",
    "https://images.unsplash.com/photo-1582719508461-905c673771fd?w=400",
    "Pioneer in radioactivity research",
    Some("Let's discuss some chemistry!"))

  /** The catalog, in display order. */
  const Personalities: seq<Personality> := [Einstein, Shakespeare, Curie]
}
