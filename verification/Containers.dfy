/** Private directories that hold what a transaction moves in and out of the public places. */
module Containers {
  import opened Effects

  /** What the file system knows a file or directory by. */
  datatype Inode = Inode(device: nat, number: nat)

  datatype Box<V> = Box(identity: Inode, slots: map<string, V>)

  /** Removing the container at `box` got some way, and perhaps to its end; `whole` says that what is left in it is whole. */
  ghost predicate Shrunk<K(!new), V>(boxes: map<K, Box<V>>, boxes0: map<K, Box<V>>, box: K, whole: bool) {
    && (forall b | b != box :: Lookup(boxes, b) == Lookup(boxes0, b))
    && (box in boxes ==>
          && box in boxes0
          && boxes[box].identity == boxes0[box].identity
          && boxes[box].slots.Keys <= boxes0[box].slots.Keys
          && (whole ==> forall n <- boxes[box].slots :: boxes[box].slots[n] == boxes0[box].slots[n]))
  }
}
