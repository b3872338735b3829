/**
 * The browser-side image list of src/utils/storage.js: one dictionary from
 * room to that room's images, kept under a single localStorage key. Every
 * operation reads the dictionary, changes at most the one room's list and
 * writes it back; the key's content is modelled as the field `all`.
 */
module LocalImages {
  import opened Seqs

  /** `{ id: Date.now(), fileLink: URL.createObjectURL(file) }`. */
  datatype LocalImage = LocalImage(id: int, fileLink: string)

  /** `all[room] || []`. */
  function RoomImages(all: map<string, seq<LocalImage>>, room: string): seq<LocalImage> {
    if room in all then all[room] else []
  }

  /** `img.id !== id`. */
  function LacksId(id: int): LocalImage -> bool {
    (img: LocalImage) => img.id != id
  }

  /** The dictionary after `addImageToLocal(room, image)`. */
  function WithImage(all: map<string, seq<LocalImage>>, room: string, image: LocalImage): map<string, seq<LocalImage>> {
    all[room := RoomImages(all, room) + [image]]
  }

  /** The dictionary after `deleteImageFromLocal(room, id)`. */
  function WithoutImage(all: map<string, seq<LocalImage>>, room: string, id: int): map<string, seq<LocalImage>> {
    if room in all then all[room := Filter(all[room], LacksId(id))] else all
  }

  /** Adding appends to the room's list (creating it if needed) and leaves every other room alone. */
  lemma WithImageSpec(all: map<string, seq<LocalImage>>, room: string, image: LocalImage, other: string)
    ensures RoomImages(WithImage(all, room, image), room) == RoomImages(all, room) + [image]
    ensures other != room ==> RoomImages(WithImage(all, room, image), other) == RoomImages(all, other)
    ensures WithImage(all, room, image).Keys == all.Keys + {room}
  {
  }

  /**
   * Deleting drops every image of the room with that id, keeps each other
   * image of the room as often as before and in order, leaves every other
   * room alone, and does nothing for a room that was never stored.
   */
  lemma WithoutImageSpec(all: map<string, seq<LocalImage>>, room: string, id: int, other: string, x: LocalImage)
    ensures room !in all ==> WithoutImage(all, room, id) == all
    ensures forall y :: y in RoomImages(WithoutImage(all, room, id), room) ==> y.id != id
    ensures multiset(RoomImages(WithoutImage(all, room, id), room))[x]
         == if x.id == id then 0 else multiset(RoomImages(all, room))[x]
    ensures other != room ==> RoomImages(WithoutImage(all, room, id), other) == RoomImages(all, other)
    ensures WithoutImage(all, room, id).Keys == all.Keys
  {
    if room in all {
      FilterMultiplicity(all[room], LacksId(id), x);
    }
  }

  /** Deleting the same id twice is deleting it once. */
  lemma WithoutImageIdempotent(all: map<string, seq<LocalImage>>, room: string, id: int)
    ensures WithoutImage(WithoutImage(all, room, id), room, id) == WithoutImage(all, room, id)
  {
    if room in all {
      FilterIdempotent(all[room], LacksId(id));
    }
  }

  /** Deleting the id of an image just added takes that image out again. */
  lemma AddThenDelete(all: map<string, seq<LocalImage>>, room: string, image: LocalImage)
    requires forall y :: y in RoomImages(all, room) ==> y.id != image.id
    ensures RoomImages(WithoutImage(WithImage(all, room, image), room, image.id), room) == RoomImages(all, room)
  {
    FilterDropsLast(RoomImages(all, room), image, LacksId(image.id));
  }

  class ImageStorage {
    /** The parsed value of the storage key. */
    var all: map<string, seq<LocalImage>>

    /** Nothing stored yet: `localStorage.getItem` gives null and the dictionary is `{}`. */
    constructor ()
      ensures all == map[]
    {
      all := map[];
    }

    /** `getImagesFromLocal(room)`. */
    method GetImagesFromLocal(room: string) returns (images: seq<LocalImage>)
      ensures room in all ==> images == all[room]
      ensures room !in all ==> images == []
    {
      images := if room in all then all[room] else [];
    }

    /** `addImageToLocal(room, image)`. */
    method AddImageToLocal(room: string, image: LocalImage)
      modifies this
      ensures all == WithImage(old(all), room, image)
    {
      if room !in all {
        all := all[room := []];
      }
      all := all[room := all[room] + [image]];
    }

    /** `deleteImageFromLocal(room, id)`. */
    method DeleteImageFromLocal(room: string, id: int)
      modifies this
      ensures all == WithoutImage(old(all), room, id)
    {
      if room !in all {
        return;
      }
      all := all[room := Filter(all[room], LacksId(id))];
    }
  }
}
