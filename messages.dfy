/** The fixed prompts the server sends. In the source they are two groups of
    string constants, one for logon and one for character creation. */
module Messages {

  // Logon prompts.
  const WelcomeMessage: string := "Welcome to the mud\r\nWhat's your name?\r\n"
  const RegisterMessage: string := "This appears to your first time here, \r\nwould you like to visit us in the mud world?\r\n"
  const EnterPassword: string := "Please enter your pass code\r\n"
  const RegisterUsername: string := "Please enter a username\r\n"
  const RegisterPasswordPrompt: string := "Password please:\r\n"
  const ConfirmPassword: string := "Please confirm your password:\r\n"
  const CreateCharacter: string := "Let's build your character\r\nWhat would you like to be? \r\n[1]Human\t\t[2]Elf\t\t[3]Dwarf\t\t[4]Dragon\r\n"

  // Character-creation prompts.
  const RaceSelection: string := "What would you like to be? \r\n[1]Human\t\t[2]Elf\t\t[3]Dwarf\t\t[4]Dragon\r\n"
  const GenderSelection: string := "Gender[m/f/u]?\r\n"
  const TypeSelection: string := "What kind of {} would you like to be?\r\n[1]Intelligent\t\t[2]Atheletic\t\t[3]Average\r\n"
  const AttrSelection: string := "Are you satisfied with the following attributes?\r\n"
  const Success: string := "Your character has been created\r\n"
}
