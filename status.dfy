/** The four status flags and the playability test (engine/status.js). */
module Status {

  datatype StatusFlags = StatusFlags(gameOver: bool, paused: bool, levelCleared: bool, playerDied: bool)

  /** A tick only simulates when no flag is raised; any single raised flag stops it. */
  function IsPlayable(st: StatusFlags): (playable: bool)
    ensures st.gameOver ==> !playable
    ensures st.paused ==> !playable
    ensures st.levelCleared ==> !playable
    ensures st.playerDied ==> !playable
    ensures playable <== !st.gameOver && !st.paused && !st.levelCleared && !st.playerDied
  {
    !(st.gameOver || st.paused || st.levelCleared || st.playerDied)
  }
}
