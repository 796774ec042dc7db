/** Value types shared by the context assembler: the stored chat message it
    reads, the provider message it produces, and the card and persona records
    the system prompt is rendered from. */
module Shared {

  datatype Option<+T> = None | Some(value: T)

  datatype Result<+T, +E> = Success(value: T) | Failure(error: E)

  /** A chat message as the message store returns it: its identifier (assigned
      by the store, increasing in insertion order), who sent it and its text. */
  datatype StoredMessage = StoredMessage(id: int, sender: string, text: string)

  /** The two roles a provider accepts. */
  datatype Role = User | Assistant

  /** One turn of the conversation sent to a language-model provider. */
  datatype ProviderMessage = ProviderMessage(role: Role, content: string)

  /** The character a card describes. */
  datatype Character = Character(
    name: string,
    description: string,
    greeting: string,
    altGreetings: seq<string>,
    msgExamples: string)

  /** The world a card describes. */
  datatype World = World(description: string)

  /** The card data the prompt is rendered from (the card's metadata block is
      never read by the assembler and is not represented). */
  datatype CardData = CardData(spec: string, specVersion: string, character: Character, world: World)

  /** The user's persona. */
  datatype PersonaData = PersonaData(name: string, description: string)

  /** Identifiers of a chat's messages are pairwise distinct (a primary key). */
  predicate DistinctIds(s: seq<StoredMessage>)
  {
    forall i, j :: 0 <= i < j < |s| ==> s[i].id != s[j].id
  }

  /** Strictly decreasing identifiers: newest first. */
  predicate Descending(s: seq<StoredMessage>)
  {
    forall i, j :: 0 <= i < j < |s| ==> s[i].id > s[j].id
  }

  /** Strictly increasing identifiers: chronological order. */
  predicate Ascending(s: seq<StoredMessage>)
  {
    forall i, j :: 0 <= i < j < |s| ==> s[i].id < s[j].id
  }

  function Reverse<T>(s: seq<T>): seq<T>
  {
    if s == [] then [] else Reverse(s[1..]) + [s[0]]
  }

  lemma {:induction false} ReverseAt<T>(s: seq<T>, k: nat)
    requires k < |s|
    ensures |Reverse(s)| == |s| && Reverse(s)[k] == s[|s| - 1 - k]
  {
    if k < |s| - 1 {
      ReverseAt(s[1..], k);
    } else {
      ReverseLength(s[1..]);
    }
  }

  lemma {:induction false} ReverseLength<T>(s: seq<T>)
    ensures |Reverse(s)| == |s|
  {
    if s != [] {
      ReverseLength(s[1..]);
    }
  }

  /** Reversing a newest-first run gives it in chronological order, with the
      same messages. */
  lemma ReverseOfDescending(s: seq<StoredMessage>)
    requires Descending(s)
    ensures |Reverse(s)| == |s| && Ascending(Reverse(s))
    ensures forall k :: 0 <= k < |s| ==> Reverse(s)[k] == s[|s| - 1 - k]
  {
    ReverseLength(s);
    forall k | 0 <= k < |s|
      ensures Reverse(s)[k] == s[|s| - 1 - k]
    {
      ReverseAt(s, k);
    }
  }

  /** `t` is a prefix of `s`. */
  predicate StartsWith(s: string, t: string)
  {
    |t| <= |s| && s[..|t|] == t
  }

  /** `t` is a suffix of `s`. */
  predicate EndsWith(s: string, t: string)
  {
    |t| <= |s| && s[|s| - |t|..] == t
  }
}
